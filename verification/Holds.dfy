/**
 Reservations as the gateway finds them, which ledger commands leave one alone, and what a quote and
 its reservation (src/services/p1_4.js) are worth to a later inference.
 */
module Holds {
  import opened Wrappers
  import EventLog
  import L = Ledger
  import opened LedgerInvariants
  import opened LedgerTheorems
  import opened GatewayCharges

  function HoldOf(ledger: L.Ledger, payer: string, reservation: Option<nat>): Option<Hold> {
    if reservation.None? || reservation.value >= |ledger.reservations| then None
    else
      var r := ledger.reservations[reservation.value];
      Some(Hold(r.entity == payer, r.status == L.Active, r.amount))
  }

  function ChargeKey(settleKey: string): string {
    "resource-charge:" + settleKey
  }

  /** A command that closes this reservation, or would. */
  predicate Names(command: L.Command, hold: nat) {
    match command
    case ReleaseCommand(_, reservation) => reservation == hold
    case SettleCommand(_, reservation, _, _) => reservation == hold
    case _ => false
  }

  /** A command that neither names this reservation nor books its settlement key. */
  predicate Spares(command: L.Command, hold: nat, settleKey: string) {
    !Names(command, hold) && (command.SettleCommand? ==> command.businessKey != settleKey)
  }

  /** The reservation and its settlement key are as they were, and no wallet is gone. */
  predicate HoldKept(a: L.Ledger, b: L.Ledger, hold: nat, settleKey: string) {
    && (hold < |a.reservations| ==> hold < |b.reservations| && b.reservations[hold] == a.reservations[hold])
    && L.FindJournal(b.journals, ChargeKey(settleKey)) == L.FindJournal(a.journals, ChargeKey(settleKey))
    && a.wallets.Keys <= b.wallets.Keys
  }

  lemma BookKeepsOtherKeys(l: L.Ledger, key: string, kind: L.JournalKind, postings: seq<L.Posting>, other: string)
    requires key != other && L.Book(l, key, kind, postings).Ok?
    ensures var b := L.Book(l, key, kind, postings).value.after;
      && b == l.(journals := b.journals)
      && L.FindJournal(b.journals, other) == L.FindJournal(l.journals, other)
  {
    var made := l.journals + [L.Journal(key, kind, postings)];
    assert made[..|l.journals|] == l.journals;
  }

  lemma MintSparesHold(l: L.Ledger, target: string, amount: int, basisKey: string, actor: string, hold: nat, settleKey: string)
    ensures HoldKept(l, L.Mint(l, target, amount, basisKey, actor).after, hold, settleKey)
  {
    hide L.Book, L.FindJournal, EventLog.Append, L.Move;
    var mintKey, key := "mint:" + basisKey, ChargeKey(settleKey);
    assert mintKey[0] == 'm' && key[0] == 'r';
    var move := L.Move(L.System("TREASURY_CONTROL"), L.Wallet(target), amount);
    if L.Book(l, mintKey, L.MintJournal, move).Ok? {
      BookKeepsOtherKeys(l, mintKey, L.MintJournal, move, key);
    }
  }

  lemma TransferSparesHold(l: L.Ledger, from: string, to: string, amount: int, businessKey: string, actor: string,
                           hold: nat, settleKey: string)
    ensures HoldKept(l, L.Transfer(l, from, to, amount, businessKey, actor).after, hold, settleKey)
  {
    hide L.Book, L.FindJournal, EventLog.Append, L.Move, L.Available;
    var transferKey, key := "transfer:" + businessKey, ChargeKey(settleKey);
    assert transferKey[0] == 't' && key[0] == 'r';
    var move := L.Move(L.Wallet(from), L.Wallet(to), amount);
    if L.Book(l, transferKey, L.TransferJournal, move).Ok? {
      BookKeepsOtherKeys(l, transferKey, L.TransferJournal, move, key);
    }
  }

  lemma SettleSparesHold(l: L.Ledger, entity: string, reservation: nat, amount: int, businessKey: string, actor: string,
                         hold: nat, settleKey: string)
    requires reservation != hold && businessKey != settleKey
    ensures HoldKept(l, L.Settle(l, entity, reservation, amount, businessKey, actor).after, hold, settleKey)
  {
    hide L.Book, L.FindJournal, EventLog.Append, L.Move;
    SameSuffixOnly("resource-charge:", businessKey, settleKey);
    var move := L.Move(L.Wallet(entity), L.System("CONSUMPTION_REDEMPTION"), amount);
    if L.Book(l, ChargeKey(businessKey), L.ResourceCharge, move).Ok? {
      BookKeepsOtherKeys(l, ChargeKey(businessKey), L.ResourceCharge, move, ChargeKey(settleKey));
    }
  }

  /** Whatever else happens in the ledger, a reservation that a command does not name is not touched by it. */
  lemma SparedHoldIsKept(l: L.Ledger, actor: string, command: L.Command, hold: nat, settleKey: string)
    requires Spares(command, hold, settleKey)
    ensures HoldKept(l, L.Execute(l, actor, command).after, hold, settleKey)
  {
    hide L.Mint, L.Transfer, L.Settle, L.Fee, L.FindJournal, L.FindReservation, L.Available, EventLog.Append;
    match command {
      case MintCommand(target, amount, basisKey) => MintSparesHold(l, target, amount, basisKey, actor, hold, settleKey);
      case TransferCommand(from, to, amount, key) => TransferSparesHold(l, from, to, amount, key, actor, hold, settleKey);
      case SettleCommand(entity, reservation, amount, key) =>
        SettleSparesHold(l, entity, reservation, amount, key, actor, hold, settleKey);
      case FirstActivationCommand(entity, date) => FeeSparesHold(l, entity, date, hold, settleKey);
      case FeeCommand(entity, date) => FeeSparesHold(l, entity, date, hold, settleKey);
      case _ =>
    }
  }

  lemma FeeSparesHold(l: L.Ledger, entity: string, date: string, hold: nat, settleKey: string)
    ensures HoldKept(l, L.Fee(l, entity, date).after, hold, settleKey)
  {
    hide L.Book, L.FindJournal, L.Available, EventLog.Append, L.FeePostings;
    var key, feeKey := ChargeKey(settleKey), L.FeeBusinessKey(entity, date);
    assert feeKey[0] == 'd' && key[0] == 'r';
    if L.Book(l, feeKey, L.DailyActivityFee, L.FeePostings(entity)).Ok? {
      BookKeepsOtherKeys(l, feeKey, L.DailyActivityFee, L.FeePostings(entity), key);
    }
  }

  lemma SameSuffixOnly(prefix: string, a: string, b: string)
    requires a != b
    ensures prefix + a != prefix + b
  {
    assert (prefix + a)[|prefix|..] == a && (prefix + b)[|prefix|..] == b;
  }

  /** A closed reservation is never changed again. */
  lemma ClosedHoldStays(l: L.Ledger, actor: string, command: L.Command, hold: nat)
    requires hold < |l.reservations| && l.reservations[hold].status != L.Active
    ensures var b := L.Execute(l, actor, command).after;
      hold < |b.reservations| && b.reservations[hold] == l.reservations[hold]
  {
    hide L.Book, L.Available, EventLog.Append, L.Fee;
    match command
    case FirstActivationCommand(entity, date) => FeeSparesHold(l, entity, date, hold, "");
    case FeeCommand(entity, date) => FeeSparesHold(l, entity, date, hold, "");
    case MintCommand(_, _, _) => SparedHoldIsKept(l, actor, command, hold, "");
    case TransferCommand(_, _, _, _) => SparedHoldIsKept(l, actor, command, hold, "");
    case SettleCommand(entity, reservation, amount, businessKey) =>
      if reservation != hold {
        SparedHoldIsKept(l, actor, command, hold, businessKey + "'");
      }
    case _ =>
  }

  lemma UnnamedHoldStays(l: L.Ledger, actor: string, command: L.Command, hold: nat)
    requires hold < |l.reservations| && !Names(command, hold)
    ensures var b := L.Execute(l, actor, command).after;
      hold < |b.reservations| && b.reservations[hold] == l.reservations[hold]
  {
    hide L.Execute, L.FindJournal;
    var otherKey := if command.SettleCommand? then command.businessKey + "'" else "";
    SparedHoldIsKept(l, actor, command, hold, otherKey);
  }

  lemma {:induction false} UnnamedHoldSurvives(l: L.Ledger, requests: seq<Request>, hold: nat)
    requires hold < |l.reservations|
    requires forall i :: 0 <= i < |requests| ==> !Names(requests[i].command, hold)
    ensures var b := RunAll(l, requests); hold < |b.reservations| && b.reservations[hold] == l.reservations[hold]
  {
    if requests == [] {
    } else {
      hide L.Execute;
      var before, last := RunAll(l, requests[..|requests| - 1]), requests[|requests| - 1];
      UnnamedHoldSurvives(l, requests[..|requests| - 1], hold);
      UnnamedHoldStays(before, last.actor, last.command, hold);
    }
  }

  /**
   A quote, the reservation made for it, and any other ledger traffic since: an inference with an
   explicit output limit is authorized exactly within the quote's limits and time, at the quote's
   maximum, and then prepared as soon as the daily fee is paid.
   */
  lemma {:induction false} QuotedInferenceIsPrepared(
    plan: Plan, maxInput: int, maxOutput: int, expiresAt: Option<nat>, quotedAt: nat, quote: Quote,
    amount: Option<nat>, reservedAt: nat, held: nat, l: L.Ledger, payer: string, key: string, reserved: L.Done,
    others: seq<Request>, messages: Messages, output: int, feeCharged: bool, now: nat)
    requires QuoteResource(plan, true, maxInput, maxOutput, expiresAt, quotedAt) == Ok(quote)
    requires plan.billing == PlatformPrepaid && quote.maxCost <= MAX_BIGINT
    requires ReserveQuoted(quote, amount, reservedAt) == Ok(held)
    requires L.Reserve(l, payer, held, key, payer) == reserved && reserved.reply.Ok?
    requires forall i :: 0 <= i < |others| ==> !Names(others[i].command, reserved.reply.value.reservation.value)
    requires output > 0
    ensures var id, hold := reserved.reply.value.reservation, HoldOf(RunAll(reserved.after, others), payer,
                                                                    reserved.reply.value.reservation);
      && hold.Some? && hold.value.active && hold.value.ownedByPayer
      && var charge := QuotedCharge(quote.(status := QuoteReserved), messages, Some(output), hold.value, true, now);
         && (charge.Ok? <==> now < quote.expiresAt && InputTokenBound(messages) <= maxInput && output <= maxOutput)
         && (charge.Ok? ==>
               && charge.value == quote.maxCost
               && PrepareProblem(plan, InferInput(messages, Some(output), charge.value, id), feeCharged, hold)
                  == if feeCharged then None else Some(DailyFeeRequired))
  {
    QuotesFitTheirPlan(plan, maxInput, maxOutput, expiresAt, quotedAt);
    UnnamedHoldSurvives(reserved.after, others, reserved.reply.value.reservation.value);
    hide RunAll, L.Available, EventLog.Append;
    if InputTokenBound(messages) <= maxInput && output <= maxOutput {
      ChargeIsMonotone(plan, Usage(InputTokenBound(messages), output), Usage(maxInput, maxOutput));
    }
  }
}
