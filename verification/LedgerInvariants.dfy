/**
 What every ledger command keeps: balanced journals, solvent wallets, one fee a day, and journals
 that are only ever added.
 */
module LedgerInvariants {
  import opened Wrappers
  import opened EventLog
  import opened Ledger

  // ---- Sums ----

  lemma PostedAppend(journals: seq<Journal>, j: Journal, account: Account)
    ensures Posted(journals + [j], account) == Posted(journals, account) + PostingsTo(j.postings, account)
  {
    assert (journals + [j])[..|journals|] == journals;
  }

  lemma MoveAmounts(from: Account, to: Account, amount: int, account: Account)
    ensures PostingsTo(Move(from, to, amount), account)
         == (if account == from then -amount else 0) + (if account == to then amount else 0)
    ensures SumOf(Move(from, to, amount)) == 0
  {
    var ps := Move(from, to, amount);
    assert ps[..1] == [ps[0]] && ps[..1][..0] == [];
    assert PostingsTo(ps[..1], account) == if account == from then -amount else 0;
    assert SumOf(ps[..1]) == -amount;
  }

  lemma ReservedAppend(rs: seq<Reservation>, r: Reservation, entity: string)
    ensures Reserved(rs + [r], entity) == Reserved(rs, entity) + HeldBy(r, entity)
  {
    assert (rs + [r])[..|rs|] == rs;
  }

  lemma {:induction false} ReservedUpdate(rs: seq<Reservation>, i: nat, r: Reservation, entity: string)
    requires i < |rs|
    ensures Reserved(rs[i := r], entity) == Reserved(rs, entity) - HeldBy(rs[i], entity) + HeldBy(r, entity)
  {
    var n := |rs| - 1;
    if i == n {
      assert rs[i := r][..n] == rs[..n];
    } else {
      assert rs[i := r][..n] == rs[..n][i := r];
      ReservedUpdate(rs[..n], i, r, entity);
    }
  }

  // ---- The invariant ----

  /** Accounts a journal may post to. */
  predicate Known(l: Ledger, account: Account) {
    match account
    case Wallet(entity) => entity in l.wallets
    case System(name) => name in {"TREASURY_CONTROL", "CONSUMPTION_REDEMPTION"}
  }

  predicate JournalOk(l: Ledger, i: nat)
    requires i < |l.journals|
  {
    && SumOf(l.journals[i].postings) == 0
    && forall p :: p in l.journals[i].postings ==> Known(l, p.account)
  }

  predicate ReservationOk(l: Ledger, i: nat)
    requires i < |l.reservations|
  {
    var r := l.reservations[i];
    && r.entity in l.wallets && r.amount > 0
    && (r.status == Settled <==> r.settledAmount.Some?)
    && (r.status == Settled ==> 0 <= r.settledAmount.value <= r.amount && (r.settledAmount.value > 0 ==>
          && r.journal.Some? && r.journal.value < |l.journals|
          && l.journals[r.journal.value].kind == ResourceCharge
          && multiset(l.journals[r.journal.value].postings)
             == multiset(Move(Wallet(r.entity), System("CONSUMPTION_REDEMPTION"), r.settledAmount.value))))
  }

  function FeeJournal(fee: FeeKey): Journal {
    Journal(FeeBusinessKey(fee.subject, fee.billingDate), DailyActivityFee, FeePostings(fee.subject))
  }

  predicate FeeOk(l: Ledger, fee: FeeKey)
    requires fee in l.fees
  {
    l.fees[fee] < |l.journals| && l.journals[l.fees[fee]] == FeeJournal(fee)
  }

  predicate FeeIsRecorded(l: Ledger, i: nat) {
    exists fee :: fee in l.fees && l.fees[fee] == i
  }

  ghost predicate Solvent(l: Ledger) {
    forall entity {:trigger Available(l, entity)} {:trigger entity in l.wallets} :: entity in l.wallets ==> Available(l, entity) >= 0
  }

  ghost predicate LedgerOk(l: Ledger) {
    && (forall i, j :: 0 <= i < j < |l.journals| ==> l.journals[i].businessKey != l.journals[j].businessKey)
    && (forall i {:trigger JournalOk(l, i)} :: 0 <= i < |l.journals| ==> JournalOk(l, i))
    && (forall i {:trigger ReservationOk(l, i)} :: 0 <= i < |l.reservations| ==> ReservationOk(l, i))
    && (forall fee {:trigger FeeOk(l, fee)} :: fee in l.fees ==> FeeOk(l, fee))
    && (forall i {:trigger FeeIsRecorded(l, i)} ::
          0 <= i < |l.journals| && l.journals[i].kind == DailyActivityFee ==> FeeIsRecorded(l, i))
    && Solvent(l)
    && Numbered(l.log)
  }

  /** What no command takes back. */
  ghost predicate Extends(a: Ledger, b: Ledger) {
    && a.journals <= b.journals
    && (forall fee :: fee in a.fees ==> fee in b.fees && b.fees[fee] == a.fees[fee])
    && a.activated <= b.activated
    && a.wallets.Keys <= b.wallets.Keys
    && |a.reservations| <= |b.reservations|
    && (forall i :: 0 <= i < |a.reservations| ==>
          && b.reservations[i].entity == a.reservations[i].entity
          && b.reservations[i].amount == a.reservations[i].amount
          && b.reservations[i].businessKey == a.reservations[i].businessKey
          && (a.reservations[i].status != Active ==> b.reservations[i] == a.reservations[i]))
  }

  // ---- Steps every command is made of ----

  lemma EventKeepsOk(l: Ledger, aggregate: Aggregate, eventType: string)
    requires LedgerOk(l)
    ensures var b := l.(log := Append(l.log, aggregate, eventType)); LedgerOk(b) && Extends(l, b)
  {
    AppendKeepsNumbered(l.log, aggregate, eventType);
    var b := l.(log := Append(l.log, aggregate, eventType));
    forall i | 0 <= i < |b.journals| ensures JournalOk(b, i) {
      assert JournalOk(l, i);
    }
    forall i | 0 <= i < |b.reservations| ensures ReservationOk(b, i) {
      assert ReservationOk(l, i);
    }
    forall fee | fee in b.fees ensures FeeOk(b, fee) {
      assert FeeOk(l, fee);
    }
    forall i | 0 <= i < |b.journals| && b.journals[i].kind == DailyActivityFee ensures FeeIsRecorded(b, i) {
      assert FeeIsRecorded(l, i);
    }
    forall entity | entity in b.wallets ensures Available(b, entity) >= 0 {
      assert Available(l, entity) >= 0;
    }
  }

  function WithJournal(l: Ledger, made: Journal, fees: map<FeeKey, nat>): Ledger {
    l.(journals := l.journals + [made], fees := fees)
  }

  /** The fee table that goes with a new journal: one new row for a fee, none for anything else. */
  ghost predicate FeesFor(l: Ledger, made: Journal, fees: map<FeeKey, nat>) {
    if made.kind == DailyActivityFee
      then exists fee :: fee !in l.fees && fees == l.fees[fee := |l.journals|] && FeeJournal(fee) == made
    else fees == l.fees
  }

  lemma JournalKeepsRows(l: Ledger, key: string, kind: JournalKind, from: Account, to: Account, amount: int,
                         fees: map<FeeKey, nat>)
    requires LedgerOk(l) && Known(l, from) && Known(l, to)
    ensures var b := WithJournal(l, Journal(key, kind, Move(from, to, amount)), fees);
      && (forall i {:trigger JournalOk(b, i)} :: 0 <= i < |b.journals| ==> JournalOk(b, i))
      && (forall i {:trigger ReservationOk(b, i)} :: 0 <= i < |b.reservations| ==> ReservationOk(b, i))
  {
    hide SumOf, Available, FeeIsRecorded, FeeOk, Solvent, Numbered;
    var b := WithJournal(l, Journal(key, kind, Move(from, to, amount)), fees);
    MoveAmounts(from, to, amount, from);
    forall i | 0 <= i < |b.journals| ensures JournalOk(b, i) {
      assert i < |l.journals| ==> JournalOk(l, i);
    }
    forall i | 0 <= i < |b.reservations| ensures ReservationOk(b, i) {
      assert ReservationOk(l, i);
    }
  }

  lemma JournalKeepsFees(l: Ledger, made: Journal, fees: map<FeeKey, nat>)
    requires LedgerOk(l) && FeesFor(l, made, fees)
    ensures var b := WithJournal(l, made, fees);
      && (forall fee {:trigger FeeOk(b, fee)} :: fee in b.fees ==> FeeOk(b, fee))
      && (forall i {:trigger FeeIsRecorded(b, i)} ::
            0 <= i < |b.journals| && b.journals[i].kind == DailyActivityFee ==> FeeIsRecorded(b, i))
      && (forall fee :: fee in l.fees ==> fee in b.fees && b.fees[fee] == l.fees[fee])
  {
    hide JournalOk, ReservationOk, Solvent, Numbered, FeeJournal;
    var b := WithJournal(l, made, fees);
    forall fee | fee in b.fees ensures FeeOk(b, fee) {
      assert fee in l.fees ==> FeeOk(l, fee);
    }
    forall i | 0 <= i < |b.journals| && b.journals[i].kind == DailyActivityFee ensures FeeIsRecorded(b, i) {
      if i < |l.journals| {
        assert FeeIsRecorded(l, i);
        var fee :| fee in l.fees && l.fees[fee] == i;
        assert fee in b.fees && b.fees[fee] == i;
      } else {
        var fee :| fee !in l.fees && fees == l.fees[fee := |l.journals|];
        assert fee in b.fees && b.fees[fee] == i;
      }
    }
  }

  lemma JournalKeepsSolvent(l: Ledger, key: string, kind: JournalKind, from: Account, to: Account, amount: int,
                            fees: map<FeeKey, nat>)
    requires Solvent(l) && from != to && amount > 0
    requires from.Wallet? ==> from.entity in l.wallets && Available(l, from.entity) >= amount
    ensures Solvent(WithJournal(l, Journal(key, kind, Move(from, to, amount)), fees))
  {
    hide Posted, PostingsTo, Reserved, Move;
    var made := Journal(key, kind, Move(from, to, amount));
    var b := WithJournal(l, made, fees);
    forall entity | entity in b.wallets ensures Available(b, entity) >= 0 {
      assert Available(l, entity) >= 0;
      PostedAppend(l.journals, made, Wallet(entity));
      MoveAmounts(from, to, amount, Wallet(entity));
    }
  }

  /** A new journal between existing accounts; only the fee table may need a new row for it. */
  lemma JournalKeepsOk(l: Ledger, key: string, kind: JournalKind, from: Account, to: Account, amount: int,
                       fees: map<FeeKey, nat>)
    requires LedgerOk(l) && FindJournal(l.journals, key).None?
    requires Known(l, from) && Known(l, to) && from != to && amount > 0
    requires from.Wallet? ==> Available(l, from.entity) >= amount
    requires FeesFor(l, Journal(key, kind, Move(from, to, amount)), fees)
    ensures var b := WithJournal(l, Journal(key, kind, Move(from, to, amount)), fees);
      LedgerOk(b) && Extends(l, b)
  {
    hide JournalOk, ReservationOk, FeeOk, FeeIsRecorded, FeesFor, Solvent, Move, Numbered, FindJournal;
    JournalKeepsRows(l, key, kind, from, to, amount, fees);
    JournalKeepsFees(l, Journal(key, kind, Move(from, to, amount)), fees);
    JournalKeepsSolvent(l, key, kind, from, to, amount, fees);
  }

  lemma NewReservationKeepsOk(l: Ledger, r: Reservation)
    requires LedgerOk(l) && r.entity in l.wallets && r.status == Active && r.settledAmount.None?
    requires 0 < r.amount <= Available(l, r.entity)
    ensures var b := l.(reservations := l.reservations + [r]); LedgerOk(b) && Extends(l, b)
  {
    var b := l.(reservations := l.reservations + [r]);
    forall i | 0 <= i < |b.journals| ensures JournalOk(b, i) {
      assert JournalOk(l, i);
    }
    forall i | 0 <= i < |b.reservations| ensures ReservationOk(b, i) {
      assert i < |l.reservations| ==> ReservationOk(l, i);
    }
    forall fee | fee in b.fees ensures FeeOk(b, fee) {
      assert FeeOk(l, fee);
    }
    forall i | 0 <= i < |b.journals| && b.journals[i].kind == DailyActivityFee ensures FeeIsRecorded(b, i) {
      assert FeeIsRecorded(l, i);
    }
    forall entity | entity in b.wallets ensures Available(b, entity) >= 0 {
      assert Available(l, entity) >= 0;
      ReservedAppend(l.reservations, r, entity);
    }
  }

  /** What is booked while a reservation closes: nothing, or one charge of its owner. */
  ghost predicate ClosingJournals(l: Ledger, r: Reservation, journals: seq<Journal>, amount: int) {
    || journals == l.journals
    || (exists key :: FindJournal(l.journals, key).None? && amount > 0
          && journals == l.journals + [Journal(key, ResourceCharge,
                           Move(Wallet(r.entity), System("CONSUMPTION_REDEMPTION"), amount))])
  }

  lemma ClosingKeepsSolvent(l: Ledger, id: nat, r: Reservation, journals: seq<Journal>, amount: int)
    requires Solvent(l) && id < |l.reservations| && l.reservations[id].status == Active
    requires r.entity == l.reservations[id].entity && r.amount == l.reservations[id].amount && r.status != Active
    requires 0 <= amount <= r.amount && ClosingJournals(l, r, journals, amount)
    ensures Solvent(l.(journals := journals, reservations := l.reservations[id := r]))
  {
    hide Posted, PostingsTo, Reserved, Move, FindJournal;
    var b := l.(journals := journals, reservations := l.reservations[id := r]);
    forall entity | entity in b.wallets ensures Available(b, entity) >= 0 {
      assert Available(l, entity) >= 0;
      ReservedUpdate(l.reservations, id, r, entity);
      if journals != l.journals {
        PostedAppend(l.journals, journals[|l.journals|], Wallet(entity));
        MoveAmounts(Wallet(r.entity), System("CONSUMPTION_REDEMPTION"), amount, Wallet(entity));
      }
    }
  }

  lemma ClosingKeepsRows(l: Ledger, id: nat, r: Reservation, journals: seq<Journal>, amount: int)
    requires LedgerOk(l) && id < |l.reservations| && ClosingJournals(l, r, journals, amount) && r.entity in l.wallets
    requires ReservationOk(l.(journals := journals, reservations := l.reservations[id := r]), id)
    ensures var b := l.(journals := journals, reservations := l.reservations[id := r]);
      && (forall i {:trigger JournalOk(b, i)} :: 0 <= i < |b.journals| ==> JournalOk(b, i))
      && (forall i {:trigger ReservationOk(b, i)} :: 0 <= i < |b.reservations| ==> ReservationOk(b, i))
      && (forall fee {:trigger FeeOk(b, fee)} :: fee in b.fees ==> FeeOk(b, fee))
      && (forall i {:trigger FeeIsRecorded(b, i)} ::
            0 <= i < |b.journals| && b.journals[i].kind == DailyActivityFee ==> FeeIsRecorded(b, i))
  {
    hide SumOf, Solvent, Numbered, FindJournal, FeeJournal;
    var b := l.(journals := journals, reservations := l.reservations[id := r]);
    MoveAmounts(Wallet(r.entity), System("CONSUMPTION_REDEMPTION"), amount, Wallet(r.entity));
    forall i | 0 <= i < |b.journals| ensures JournalOk(b, i) {
      assert i < |l.journals| ==> JournalOk(l, i);
    }
    forall i | 0 <= i < |b.reservations| ensures ReservationOk(b, i) {
      assert ReservationOk(l, i);
    }
    forall fee | fee in b.fees ensures FeeOk(b, fee) {
      assert FeeOk(l, fee);
    }
    forall i | 0 <= i < |b.journals| && b.journals[i].kind == DailyActivityFee ensures FeeIsRecorded(b, i) {
      assert FeeIsRecorded(l, i);
      var fee :| fee in l.fees && l.fees[fee] == i;
      assert fee in b.fees;
    }
  }

  /** A reservation closed and a journal booked at once: the charge never exceeds what was held. */
  lemma CloseKeepsOk(l: Ledger, id: nat, r: Reservation, journals: seq<Journal>, amount: int)
    requires LedgerOk(l) && id < |l.reservations| && l.reservations[id].status == Active
    requires r.entity == l.reservations[id].entity && r.amount == l.reservations[id].amount && r.status != Active
    requires r.businessKey == l.reservations[id].businessKey
    requires 0 <= amount <= r.amount && ClosingJournals(l, r, journals, amount)
    requires ReservationOk(l.(journals := journals, reservations := l.reservations[id := r]), id)
    ensures var b := l.(journals := journals, reservations := l.reservations[id := r]);
      LedgerOk(b) && Extends(l, b)
  {
    assert r.entity in l.wallets by {
      assert ReservationOk(l, id);
    }
    hide JournalOk, ReservationOk, FeeOk, FeeIsRecorded, Solvent, Move, Numbered, FindJournal;
    ClosingKeepsSolvent(l, id, r, journals, amount);
    ClosingKeepsRows(l, id, r, journals, amount);
  }

  lemma ExtendsTransitive(a: Ledger, b: Ledger, c: Ledger)
    requires Extends(a, b) && Extends(b, c)
    ensures Extends(a, c)
  {
  }

  lemma ExtendsReflexive(a: Ledger)
    ensures Extends(a, a)
  {
  }

  lemma WalletEventKeepsOk(l: Ledger, b: Ledger, entity: string, eventType: string)
    requires LedgerOk(b) && Extends(l, b)
    ensures LedgerOk(WalletEvent(b, entity, eventType)) && Extends(l, WalletEvent(b, entity, eventType))
  {
    EventKeepsOk(b, Aggregate("WALLET", entity), eventType);
    hide LedgerOk;
    ExtendsTransitive(l, b, WalletEvent(b, entity, eventType));
  }

  // ---- One lemma per command ----

  lemma MintKeepsOk(l: Ledger, target: string, amount: int, basisKey: string, actor: string)
    requires LedgerOk(l)
    ensures var done := Mint(l, target, amount, basisKey, actor); LedgerOk(done.after) && Extends(l, done.after)
  {
    var done := Mint(l, target, amount, basisKey, actor);
    if done.after != l {
      JournalKeepsOk(l, "mint:" + basisKey, MintJournal, System("TREASURY_CONTROL"), Wallet(target), amount, l.fees);
      hide LedgerOk, Extends;
      WalletEventKeepsOk(l, Book(l, "mint:" + basisKey, MintJournal,
                                 Move(System("TREASURY_CONTROL"), Wallet(target), amount)).value.after,
                         target, "ENERGY_MINTED");
    }
  }

  lemma TransferKeepsOk(l: Ledger, from: string, to: string, amount: int, businessKey: string, actor: string)
    requires LedgerOk(l)
    ensures var done := Transfer(l, from, to, amount, businessKey, actor); LedgerOk(done.after) && Extends(l, done.after)
  {
    var done := Transfer(l, from, to, amount, businessKey, actor);
    if done.after != l {
      var key := "transfer:" + businessKey;
      JournalKeepsOk(l, key, TransferJournal, Wallet(from), Wallet(to), amount, l.fees);
      hide LedgerOk, Extends;
      var booked := Book(l, key, TransferJournal, Move(Wallet(from), Wallet(to), amount)).value.after;
      WalletEventKeepsOk(l, booked, from, "ENERGY_TRANSFERRED_OUT");
      WalletEventKeepsOk(l, WalletEvent(booked, from, "ENERGY_TRANSFERRED_OUT"), to, "ENERGY_TRANSFERRED_IN");
    }
  }

  lemma ReserveKeepsOk(l: Ledger, entity: string, amount: int, businessKey: string, actor: string)
    requires LedgerOk(l)
    ensures var done := Reserve(l, entity, amount, businessKey, actor); LedgerOk(done.after) && Extends(l, done.after)
  {
    var done := Reserve(l, entity, amount, businessKey, actor);
    if done.after != l {
      var r := Reservation(entity, businessKey, amount, Active, None, None);
      NewReservationKeepsOk(l, r);
      hide LedgerOk, Extends;
      WalletEventKeepsOk(l, l.(reservations := l.reservations + [r]), entity, "ENERGY_RESERVED");
    }
  }

  lemma ReleaseKeepsOk(l: Ledger, entity: string, reservation: nat, actor: string)
    requires LedgerOk(l)
    ensures var done := Release(l, entity, reservation, actor); LedgerOk(done.after) && Extends(l, done.after)
  {
    var done := Release(l, entity, reservation, actor);
    if done.after != l {
      assert ReservationOk(l, reservation);
      var r := l.reservations[reservation].(status := Released);
      CloseKeepsOk(l, reservation, r, l.journals, 0);
      assert l.(journals := l.journals, reservations := l.reservations[reservation := r])
          == l.(reservations := l.reservations[reservation := r]);
      hide LedgerOk, Extends;
      WalletEventKeepsOk(l, l.(reservations := l.reservations[reservation := r]), entity, "ENERGY_RESERVATION_RELEASED");
    }
  }

  lemma SettleKeepsOk(l: Ledger, entity: string, reservation: nat, amount: int, businessKey: string, actor: string)
    requires LedgerOk(l)
    ensures var done := Settle(l, entity, reservation, amount, businessKey, actor);
      LedgerOk(done.after) && Extends(l, done.after)
  {
    hide Solvent, JournalOk, FeeOk, FeeIsRecorded, Extends, FindJournal, Append, Numbered;
    ExtendsReflexive(l);
    var done := Settle(l, entity, reservation, amount, businessKey, actor);
    if done.after != l {
      assert ReservationOk(l, reservation);
      var key := "resource-charge:" + businessKey;
      var charge := Move(Wallet(entity), System("CONSUMPTION_REDEMPTION"), amount);
      var booked := if amount == 0 then Booked(l, 0, true) else Book(l, key, ResourceCharge, charge).value;
      var r := l.reservations[reservation].(
        status := Settled, settledAmount := Some(amount), journal := if amount == 0 then None else Some(booked.journal));
      CloseKeepsOk(l, reservation, r, booked.after.journals, amount);
      var b := l.(journals := booked.after.journals, reservations := l.reservations[reservation := r]);
      hide LedgerOk;
      WalletEventKeepsOk(l, b, entity, "ENERGY_RESERVATION_SETTLED");
    }
  }

  // ---- Fees ----

  /** A fee journal is never replayed for a fee that was not recorded: one day, one subject, one fee. */
  lemma FeeKeyIsFresh(l: Ledger, entity: string, billingDate: string)
    requires LedgerOk(l) && FeeKey(entity, billingDate) !in l.fees
    ensures var found := FindJournal(l.journals, FeeBusinessKey(entity, billingDate));
      found.Some? ==> Book(l, FeeBusinessKey(entity, billingDate), DailyActivityFee, FeePostings(entity)).Err?
  {
    var key := FeeBusinessKey(entity, billingDate);
    var found := FindJournal(l.journals, key);
    if found.Some? && Book(l, key, DailyActivityFee, FeePostings(entity)).Ok? {
      assert FeeIsRecorded(l, found.value);
      var fee :| fee in l.fees && l.fees[fee] == found.value;
      assert FeeOk(l, fee);
      SameFeePostings(fee.subject, entity);
      SameSuffix("daily-fee:" + entity + ":", fee.billingDate, billingDate);
      assert false;
    }
  }

  lemma SameFeePostings(a: string, b: string)
    requires multiset(FeePostings(a)) == multiset(FeePostings(b))
    ensures a == b
  {
    assert FeePostings(a)[0] in multiset(FeePostings(a));
    assert FeePostings(a)[0] in FeePostings(b);
  }

  lemma SameSuffix(prefix: string, a: string, b: string)
    requires prefix + a == prefix + b
    ensures a == b
  {
    assert a == (prefix + a)[|prefix|..] && b == (prefix + b)[|prefix|..];
  }

  lemma FeeKeepsOk(l: Ledger, entity: string, billingDate: string)
    requires LedgerOk(l)
    ensures var done := Fee(l, entity, billingDate); LedgerOk(done.after) && Extends(l, done.after)
  {
    var done := Fee(l, entity, billingDate);
    if done.after != l {
      var fee := FeeKey(entity, billingDate);
      FeeKeyIsFresh(l, entity, billingDate);
      var key, fees := FeeBusinessKey(entity, billingDate), l.fees[fee := |l.journals|];
      assert FeeJournal(fee) == Journal(key, DailyActivityFee, FeePostings(entity));
      JournalKeepsOk(l, key, DailyActivityFee, Wallet(entity), System("CONSUMPTION_REDEMPTION"), DAILY_ACTIVITY_FEE, fees);
      hide LedgerOk, Extends;
      var b := l.(journals := l.journals + [Journal(key, DailyActivityFee, FeePostings(entity))], fees := fees);
      WalletEventKeepsOk(l, b, entity, "DAILY_ACTIVITY_FEE_CHARGED");
    }
  }

  lemma ActivatedKeepsOk(l: Ledger, entity: string)
    requires LedgerOk(l)
    ensures var b := l.(activated := l.activated + {entity}); LedgerOk(b) && Extends(l, b)
  {
    var b := l.(activated := l.activated + {entity});
    forall i | 0 <= i < |b.journals| ensures JournalOk(b, i) {
      assert JournalOk(l, i);
    }
    forall i | 0 <= i < |b.reservations| ensures ReservationOk(b, i) {
      assert ReservationOk(l, i);
    }
    forall fee | fee in b.fees ensures FeeOk(b, fee) {
      assert FeeOk(l, fee);
    }
    forall i | 0 <= i < |b.journals| && b.journals[i].kind == DailyActivityFee ensures FeeIsRecorded(b, i) {
      assert FeeIsRecorded(l, i);
    }
    forall entity | entity in b.wallets ensures Available(b, entity) >= 0 {
      assert Available(l, entity) >= 0;
    }
  }

  lemma FirstActivationKeepsOk(l: Ledger, entity: string, billingDate: string, actor: string)
    requires LedgerOk(l)
    ensures var done := FirstActivation(l, entity, billingDate, actor); LedgerOk(done.after) && Extends(l, done.after)
  {
    hide LedgerOk, Fee;
    ExtendsReflexive(l);
    FeeKeepsOk(l, entity, billingDate);
    var fee := Fee(l, entity, billingDate).after;
    ActivatedKeepsOk(fee, entity);
    ExtendsTransitive(l, fee, fee.(activated := fee.activated + {entity}));
    FeeKeepsActivated(l, entity, billingDate);
  }

  lemma FeeKeepsActivated(l: Ledger, entity: string, billingDate: string)
    ensures Fee(l, entity, billingDate).after.activated == l.activated
    ensures Fee(l, entity, billingDate).reply.Err? ==> Fee(l, entity, billingDate).after == l
  {
  }

  lemma {:induction false} NothingPosted(journals: seq<Journal>, entity: string)
    requires forall i :: 0 <= i < |journals| ==> forall p :: p in journals[i].postings ==> p.account != Wallet(entity)
    ensures Posted(journals, Wallet(entity)) == 0
  {
    if journals == [] {
    } else {
      NothingPosted(journals[..|journals| - 1], entity);
      NothingPostedIn(journals[|journals| - 1].postings, entity);
    }
  }

  lemma {:induction false} NothingPostedIn(postings: seq<Posting>, entity: string)
    requires forall p :: p in postings ==> p.account != Wallet(entity)
    ensures PostingsTo(postings, Wallet(entity)) == 0
  {
    if postings == [] {
    } else {
      NothingPostedIn(postings[..|postings| - 1], entity);
    }
  }

  lemma {:induction false} NothingReserved(rs: seq<Reservation>, entity: string)
    requires forall i :: 0 <= i < |rs| ==> rs[i].entity != entity
    ensures Reserved(rs, entity) == 0
  {
    if rs == [] {
    } else {
      NothingReserved(rs[..|rs| - 1], entity);
    }
  }

  lemma CreateEntityKeepsOk(l: Ledger, entity: string, isSystem: bool)
    requires LedgerOk(l)
    ensures LedgerOk(CreateEntity(l, entity, isSystem)) && Extends(l, CreateEntity(l, entity, isSystem))
  {
    if CreateEntity(l, entity, isSystem) == l {
      ExtendsReflexive(l);
    } else {
      var b := l.(entities := l.entities[entity := Entity(isSystem, true)], wallets := l.wallets[entity := 0]);
      forall i | 0 <= i < |b.journals| ensures JournalOk(b, i) {
        assert JournalOk(l, i);
      }
      forall i | 0 <= i < |b.reservations| ensures ReservationOk(b, i) {
        assert ReservationOk(l, i);
      }
      forall fee | fee in b.fees ensures FeeOk(b, fee) {
        assert FeeOk(l, fee);
      }
      forall i | 0 <= i < |b.journals| && b.journals[i].kind == DailyActivityFee ensures FeeIsRecorded(b, i) {
        assert FeeIsRecorded(l, i);
      }
      forall e | e in b.wallets ensures Available(b, e) >= 0 {
        if e == entity {
          assert forall i {:trigger JournalOk(l, i)} :: 0 <= i < |l.journals| ==> JournalOk(l, i);
          forall i | 0 <= i < |l.journals| ensures forall p :: p in l.journals[i].postings ==> p.account != Wallet(entity) {
            assert JournalOk(l, i);
          }
          NothingPosted(l.journals, entity);
          forall i | 0 <= i < |l.reservations| ensures l.reservations[i].entity != entity {
            assert ReservationOk(l, i);
          }
          NothingReserved(l.reservations, entity);
        } else {
          assert Available(l, e) >= 0;
        }
      }
      EventKeepsOk(b, Aggregate("ENTITY", entity), "ENTITY_CREATED");
      assert Extends(l, b);
      ExtendsTransitive(l, b, CreateEntity(l, entity, isSystem));
    }
  }
}
