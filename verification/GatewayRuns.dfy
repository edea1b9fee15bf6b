/**
 What one inference leaves behind, whatever other transactions commit between its own: where a run
 stands between two of its transactions, that nobody else moves it from there, and how it ends.
 */
module GatewayRuns {
  import opened Wrappers
  import L = Ledger
  import opened LedgerInvariants
  import opened LedgerTheorems
  import opened GatewayCharges
  import opened Holds
  import opened GatewayTables

  // ---- Rows of one execution ----

  lemma OfAppend<T>(rows: seq<Row<T>>, row: Row<T>, executionId: string)
    ensures Of(rows + [row], executionId)
         == Of(rows, executionId) + if row.executionId == executionId then [row.data] else []
  {
    assert (rows + [row])[..|rows|] == rows;
  }

  lemma {:induction false} OfMember<T>(rows: seq<Row<T>>, row: Row<T>)
    requires row in rows
    ensures row.data in Of(rows, row.executionId)
  {
    var last := rows[|rows| - 1];
    if row == last {
    } else {
      OfMember(rows[..|rows| - 1], row);
    }
  }

  function ClosedOf(own: seq<Attempt>, attemptNo: nat, status: AttemptStatus): seq<Attempt> {
    seq(|own|, i requires 0 <= i < |own| => if own[i].attemptNo == attemptNo then Attempt(attemptNo, status) else own[i])
  }

  /** Closing an attempt closes it among the rows of its execution, and touches no other execution. */
  lemma {:induction false} OfClosed(rows: seq<Row<Attempt>>, closer: string, attemptNo: nat, status: AttemptStatus, executionId: string)
    ensures Of(Closed(rows, closer, attemptNo, status), executionId)
         == if executionId == closer then ClosedOf(Of(rows, executionId), attemptNo, status) else Of(rows, executionId)
  {
    if rows == [] {
    } else {
      var front, closed := rows[..|rows| - 1], Closed(rows, closer, attemptNo, status);
      assert closed[..|rows| - 1] == Closed(front, closer, attemptNo, status);
      OfClosed(front, closer, attemptNo, status, executionId);
    }
  }

  // ---- The hold of an execution ----

  /** A platform-paid execution holds its own active reservation, and its settlement key is unused. */
  predicate Funded(l: L.Ledger, p: Prepared) {
    Prepaid(p) ==>
      && p.reservation.Some? && p.payer in l.wallets
      && L.Owns(l, p.payer, p.reservation.value)
      && l.reservations[p.reservation.value].status == L.Active
      && l.reservations[p.reservation.value].amount >= p.maxCharge
      && L.FindJournal(l.journals, ChargeKey(SettleKey(p.executionId))).None?
  }

  /** The hold is settled at the charge, and exactly the charge was booked for the execution. */
  predicate SettledAt(l: L.Ledger, p: Prepared, charge: nat) {
    Prepaid(p) ==>
      && p.reservation.Some? && L.Owns(l, p.payer, p.reservation.value)
      && l.reservations[p.reservation.value].status == L.Settled
      && l.reservations[p.reservation.value].settledAmount == Some(charge)
      && var booked := L.FindJournal(l.journals, ChargeKey(SettleKey(p.executionId)));
         if charge == 0 then booked.None?
         else booked.Some? && l.journals[booked.value]
              == L.Journal(ChargeKey(SettleKey(p.executionId)), L.ResourceCharge,
                           L.Move(L.Wallet(p.payer), L.System("CONSUMPTION_REDEMPTION"), charge))
  }

  /** The hold went back to the payer, and nothing was booked for the execution. */
  predicate GivenBack(l: L.Ledger, p: Prepared) {
    Prepaid(p) ==>
      && p.reservation.Some? && L.Owns(l, p.payer, p.reservation.value)
      && l.reservations[p.reservation.value].status == L.Released
      && L.FindJournal(l.journals, ChargeKey(SettleKey(p.executionId))).None?
  }

  lemma SettlingWorks(l: L.Ledger, p: Prepared, charge: nat)
    requires Funded(l, p) && charge <= p.maxCharge
    ensures SettleHold(l, p, charge).reply.Ok? && SettledAt(SettleHold(l, p, charge).after, p, charge)
  {
    var key := ChargeKey(SettleKey(p.executionId));
    if Prepaid(p) && charge > 0 {
      FindsLast(l.journals, L.Journal(key, L.ResourceCharge, L.Move(L.Wallet(p.payer), L.System("CONSUMPTION_REDEMPTION"), charge)));
      hide L.Move, L.FindJournal;
    }
  }

  lemma FindsLast(journals: seq<L.Journal>, made: L.Journal)
    ensures L.FindJournal(journals + [made], made.businessKey) == Some(|journals|)
  {
  }

  lemma ReleasingWorks(l: L.Ledger, p: Prepared)
    requires Funded(l, p)
    ensures ReleaseHold(l, p).reply.Ok? && GivenBack(ReleaseHold(l, p).after, p)
  {
  }

  // ---- Nobody else touches the hold ----

  predicate NotItsHold(p: Prepared, reservation: Option<nat>) {
    Prepaid(p) ==> reservation.None? || reservation != p.reservation
  }

  /** No other execution was prepared on the reservation of this one. */
  ghost predicate SoleUser(executions: map<string, Execution>, p: Prepared) {
    forall id :: id in executions && id != p.executionId ==> NotItsHold(p, executions[id].reservation)
  }

  /**
   A transaction that is not one of the run's own and does not name its reservation or book its
   settlement key. Anybody may ask to cancel the execution.
   */
  predicate IsOther(p: Prepared, transaction: Transaction) {
    match transaction
    case OnLedger(_, command) =>
      Prepaid(p) && p.reservation.Some? ==> Spares(command, p.reservation.value, SettleKey(p.executionId))
    case Prepares(_, _, _, input, _) => NotItsHold(p, input.reservationId)
    case Cancels(_, _, _) => true
    case Dispatches(other, _, _) => other.executionId != p.executionId
    case Retries(other, _) => other.executionId != p.executionId
    case Succeeds(other, _, _) => other.executionId != p.executionId && NotItsHold(p, other.reservation)
    case Fails(other, _, _) => other.executionId != p.executionId && NotItsHold(p, other.reservation)
    case EndsUnknown(other, _) => other.executionId != p.executionId
    case Blocks(other) => other.executionId != p.executionId && NotItsHold(p, other.reservation)
  }

  predicate AllOther(p: Prepared, transactions: seq<Transaction>) {
    forall i :: 0 <= i < |transactions| ==> IsOther(p, transactions[i])
  }

  // ---- Where a run stands ----

  /** The rows of an execution. */
  ghost predicate Rows(t: Tables, p: Prepared, status: ExecutionStatus, attempts: seq<Attempt>, receipts: seq<Receipt>,
                       events: seq<Event>)
  {
    && p.executionId in t.executions
    && (var row := t.executions[p.executionId];
        row.status == status && row.payer == p.payer && row.reservation == p.reservation && row.maxCharge == p.maxCharge)
    && Of(t.attempts, p.executionId) == attempts
    && Of(t.receipts, p.executionId) == receipts
    && Of(t.events, p.executionId) == events
  }

  /** Attempts 1..n, all of them closed as failed. */
  function Retried(n: nat): (s: seq<Attempt>)
    ensures |s| == n
  {
    seq(n, (i: nat) => Attempt(i + 1, AttemptFailed))
  }

  /** The events of an execution that was dispatched n times. */
  function Sendings(n: nat): seq<Event> {
    [ExecutionProposed] + seq(n, _ => ExecutionDispatched)
  }

  ghost predicate Common(t: Tables, p: Prepared) {
    p.executionId !in t.reconciliation && SoleUser(t.executions, p)
  }

  /** n attempts were sent and may be followed by another one. */
  ghost predicate Waiting(t: Tables, p: Prepared, n: nat) {
    && Rows(t, p, if n == 0 then Proposed else Dispatched, Retried(n), [], Sendings(n))
    && Funded(t.ledger, p) && Common(t, p)
  }

  /** The n-th attempt is out. */
  ghost predicate Sent(t: Tables, p: Prepared, n: nat) {
    && n > 0 && Rows(t, p, Dispatched, Retried(n - 1) + [Attempt(n, Started)], [], Sendings(n))
    && Funded(t.ledger, p) && Common(t, p)
  }

  /** Cancelled before anything was sent. */
  ghost predicate CancelledFirst(t: Tables, p: Prepared) {
    && Rows(t, p, Cancelled, [], [], [ExecutionProposed, ExecutionCancelled])
    && GivenBack(t.ledger, p) && Common(t, p)
  }

  // ---- How a run ends ----

  function UsageOf(reply: ProviderReply): Option<Usage> {
    match reply
    case ErrorResponse(_, usage) => usage
    case OkResponse(usage, _) => usage
    case _ => None
  }

  /** The provider gave no trustworthy account of what it did, or one that was never authorized. */
  predicate LeavesDoubt(p: Prepared, reply: ProviderReply) {
    || reply.NoTrustworthyOutcome?
    || (reply.OkResponse? && reply.usage.None?)
    || (UsageOf(reply).Some? && ChargeFor(p.plan, UsageOf(reply).value) > p.maxCharge)
  }

  /** A text answer within every limit. */
  predicate IsAnswer(p: Prepared, reply: ProviderReply) {
    && reply.OkResponse? && reply.usage.Some? && reply.hasTextOutput
    && reply.usage.value.inputTokens <= p.plan.maxInputTokens
    && reply.usage.value.outputTokens <= p.maxOutputTokens
  }

  predicate Retryable(httpStatus: int) {
    httpStatus in {408, 429, 500, 502, 503, 504}
  }

  /** A reply that another attempt may follow: nothing was sent, or a retryable error without usage under one provider key. */
  predicate SafeToRetry(plan: Plan, reply: ProviderReply) {
    || reply.ConnectFailed?
    || (reply.ErrorResponse? && reply.errorUsage.None? && Retryable(reply.httpStatus) && plan.supportsIdempotency)
  }

  function AllowedAttempts(plan: Plan): nat {
    if plan.supportsIdempotency then plan.maxAttempts else 1
  }

  function EndingFor(p: Prepared, reply: ProviderReply): Ending {
    if LeavesDoubt(p, reply) then DOUBT else if IsAnswer(p, reply) then SUCCESS else FAILURE
  }

  /** The receipt of a run: whenever usage was measured and authorized. */
  function ReceiptsAfter(p: Prepared, n: nat, reply: ProviderReply): (receipts: seq<Receipt>)
    ensures |receipts| <= 1
  {
    if LeavesDoubt(p, reply) || UsageOf(reply).None? then [] else [ReceiptFor(p, n, UsageOf(reply).value)]
  }

  /** The n-th reply ended the run. */
  ghost predicate EndedBy(t: Tables, p: Prepared, n: nat, reply: ProviderReply) {
    var ending, receipts := EndingFor(p, reply), ReceiptsAfter(p, n, reply);
    && n > 0 && Rows(t, p, ending.status, Retried(n - 1) + [Attempt(n, ending.attempt)], receipts, Sendings(n) + [ending.event])
    && (p.executionId in t.reconciliation <==> ending == DOUBT)
    && var charge := t.executions[p.executionId].finalCharge;
       if ending == DOUBT then Funded(t.ledger, p)
       else if receipts == [] then GivenBack(t.ledger, p) && charge == Some(0)
       else receipts[0].charge <= p.maxCharge && SettledAt(t.ledger, p, receipts[0].charge) && charge == Some(receipts[0].charge)
  }

  /** The run was blocked before its attempt n + 1. */
  ghost predicate EndedBlocked(t: Tables, p: Prepared, n: nat) {
    && Rows(t, p, Failed, Retried(n), [], Sendings(n) + [ExecutionFailed])
    && p.executionId !in t.reconciliation && GivenBack(t.ledger, p)
  }

  /** The execution was cancelled before anything was sent. */
  ghost predicate EndedCancelled(t: Tables, p: Prepared) {
    && Rows(t, p, Failed, [], [], [ExecutionProposed, ExecutionCancelled, ExecutionFailed])
    && p.executionId !in t.reconciliation && GivenBack(t.ledger, p)
  }

  // ---- Other transactions ----

  /** What a transaction of somebody else leaves as it was. */
  ghost predicate Undisturbed(a: Tables, b: Tables, p: Prepared) {
    && p.executionId in a.executions && p.executionId in b.executions
    && b.executions[p.executionId] == a.executions[p.executionId]
    && Of(b.attempts, p.executionId) == Of(a.attempts, p.executionId)
    && Of(b.receipts, p.executionId) == Of(a.receipts, p.executionId)
    && Of(b.events, p.executionId) == Of(a.events, p.executionId)
    && (p.executionId in b.reconciliation <==> p.executionId in a.reconciliation)
    && (Prepaid(p) && p.reservation.Some? ==>
          HoldKept(a.ledger, b.ledger, p.reservation.value, SettleKey(p.executionId)))
    && SoleUser(b.executions, p)
  }

  lemma OtherSettles(l: L.Ledger, p: Prepared, other: Prepared, charge: nat)
    requires other.executionId != p.executionId && NotItsHold(p, other.reservation)
    requires Prepaid(p) && p.reservation.Some?
    ensures HoldKept(l, SettleHold(l, other, charge).after, p.reservation.value, SettleKey(p.executionId))
    ensures HoldKept(l, ReleaseHold(l, other).after, p.reservation.value, SettleKey(p.executionId))
  {
    SameSuffixOnly("gateway:", other.executionId, p.executionId);
    if Prepaid(other) && other.reservation.Some? {
      SparedHoldIsKept(l, other.payer, L.SettleCommand(other.payer, other.reservation.value, charge, SettleKey(other.executionId)),
                       p.reservation.value, SettleKey(p.executionId));
      SparedHoldIsKept(l, other.payer, L.ReleaseCommand(other.payer, other.reservation.value),
                       p.reservation.value, SettleKey(p.executionId));
    }
    hide L.Execute, L.FindJournal;
  }

  lemma OtherFinishLeavesAlone(t: Tables, p: Prepared, other: Prepared, attemptNo: nat, closed: L.Done, ending: Ending,
                               charge: nat, receipt: Option<Receipt>)
    requires p.executionId in t.executions && SoleUser(t.executions, p) && other.executionId != p.executionId
    requires Prepaid(p) && p.reservation.Some? ==>
      HoldKept(t.ledger, closed.after, p.reservation.value, SettleKey(p.executionId))
    ensures closed.reply.Ok? ==>
      Undisturbed(t, Finish(t, other, attemptNo, closed, ending, charge, receipt).0, p)
  {
    hide HoldKept, Closed, Of;
    OfClosed(t.attempts, other.executionId, attemptNo, ending.attempt, p.executionId);
    OfAppend(t.events, Row(other.executionId, ending.event), p.executionId);
    if receipt.Some? {
      OfAppend(t.receipts, Row(other.executionId, receipt.value), p.executionId);
    }
  }

  lemma NothingIsUndisturbed(t: Tables, p: Prepared)
    requires p.executionId in t.executions && SoleUser(t.executions, p)
    ensures Undisturbed(t, t, p)
  {
  }

  lemma OtherEndLeavesAlone(t: Tables, p: Prepared, other: Prepared, attemptNo: nat, usage: Option<Usage>)
    requires p.executionId in t.executions && SoleUser(t.executions, p)
    requires other.executionId != p.executionId && NotItsHold(p, other.reservation)
    ensures usage.Some? ==> Undisturbed(t, Succeed(t, other, attemptNo, usage.value).0, p)
    ensures Undisturbed(t, Fail(t, other, attemptNo, usage).0, p)
  {
    hide Undisturbed, SettleHold, ReleaseHold, ReceiptFor, ChargeFor, SoleUser, HoldKept;
    NothingIsUndisturbed(t, p);
    var charge := if usage.Some? then ChargeFor(other.plan, usage.value) else 0;
    if Prepaid(p) && p.reservation.Some? {
      OtherSettles(t.ledger, p, other, charge);
    }
    if usage.Some? {
      var settled, receipt := SettleHold(t.ledger, other, charge), Some(ReceiptFor(other, attemptNo, usage.value));
      OtherFinishLeavesAlone(t, p, other, attemptNo, settled, SUCCESS, charge, receipt);
      OtherFinishLeavesAlone(t, p, other, attemptNo, settled, FAILURE, charge, receipt);
    } else {
      OtherFinishLeavesAlone(t, p, other, attemptNo, ReleaseHold(t.ledger, other), FAILURE, 0, None);
    }
  }

  lemma OtherCancelLeavesAlone(t: Tables, p: Prepared, id: string, actor: string, actorIsSystem: bool)
    requires p.executionId in t.executions && SoleUser(t.executions, p) && id != p.executionId
    ensures Undisturbed(t, Cancel(t, id, actor, actorIsSystem).0, p)
  {
    hide L.Execute, Of, HoldKept;
    OfAppend(t.events, Row(id, ExecutionCancelled), p.executionId);
    if Prepaid(p) && p.reservation.Some? {
      HoldKeptReflexive(t.ledger, p.reservation.value, SettleKey(p.executionId));
      if id in t.executions && t.executions[id].reservation.Some? {
        var row := t.executions[id];
        SparedHoldIsKept(t.ledger, actor, L.ReleaseCommand(row.payer, row.reservation.value), p.reservation.value,
                         SettleKey(p.executionId));
      }
    }
  }

  lemma OtherBlockLeavesAlone(t: Tables, p: Prepared, other: Prepared)
    requires p.executionId in t.executions && SoleUser(t.executions, p)
    requires other.executionId != p.executionId && NotItsHold(p, other.reservation)
    ensures Undisturbed(t, Block(t, other).0, p)
  {
    hide SettleHold, ReleaseHold, HoldOf, Of, HoldKept;
    OfAppend(t.events, Row(other.executionId, ExecutionFailed), p.executionId);
    if Prepaid(p) && p.reservation.Some? {
      HoldKeptReflexive(t.ledger, p.reservation.value, SettleKey(p.executionId));
      OtherSettles(t.ledger, p, other, 0);
    }
  }

  /** Transactions of others that leave the ledger as it is. */
  lemma OtherRowsLeaveAlone(t: Tables, p: Prepared, transaction: Transaction)
    requires IsOther(p, transaction) && p.executionId in t.executions && SoleUser(t.executions, p)
    requires transaction.Prepares? || transaction.Dispatches? || transaction.Retries? || transaction.EndsUnknown?
    ensures Undisturbed(t, Commit(t, transaction), p)
  {
    hide HoldOf, PrepareProblem, DispatchProblem, Closed, Of, HoldKept, ReceiptFor;
    if Prepaid(p) && p.reservation.Some? {
      HoldKeptReflexive(t.ledger, p.reservation.value, SettleKey(p.executionId));
    }
    match transaction
    case Prepares(id, _, _, _, _) => OfAppend(t.events, Row(id, ExecutionProposed), p.executionId);
    case Dispatches(other, attemptNo, _) =>
      OfAppend(t.attempts, Row(other.executionId, Attempt(attemptNo, Started)), p.executionId);
      OfAppend(t.events, Row(other.executionId, ExecutionDispatched), p.executionId);
    case Retries(other, attemptNo) => OfClosed(t.attempts, other.executionId, attemptNo, AttemptFailed, p.executionId);
    case EndsUnknown(other, attemptNo) =>
      OfClosed(t.attempts, other.executionId, attemptNo, AttemptUnknown, p.executionId);
      OfAppend(t.events, Row(other.executionId, ExecutionOutcomeUnknown), p.executionId);
  }

  lemma LedgerLeavesAlone(t: Tables, p: Prepared, actor: string, command: L.Command)
    requires IsOther(p, OnLedger(actor, command)) && p.executionId in t.executions && SoleUser(t.executions, p)
    ensures Undisturbed(t, Commit(t, OnLedger(actor, command)), p)
  {
    hide L.Execute, HoldKept, Of;
    if Prepaid(p) && p.reservation.Some? {
      SparedHoldIsKept(t.ledger, actor, command, p.reservation.value, SettleKey(p.executionId));
    }
  }

  lemma OtherLeavesAlone(t: Tables, p: Prepared, transaction: Transaction)
    requires IsOther(p, transaction) && p.executionId in t.executions && SoleUser(t.executions, p)
    requires transaction.Cancels? ==> transaction.executionId != p.executionId
    ensures Undisturbed(t, Commit(t, transaction), p)
  {
    NothingIsUndisturbed(t, p);
    match transaction {
      case OnLedger(actor, command) => LedgerLeavesAlone(t, p, actor, command);
      case Succeeds(other, attemptNo, usage) => OtherEndLeavesAlone(t, p, other, attemptNo, Some(usage));
      case Fails(other, attemptNo, usage) => OtherEndLeavesAlone(t, p, other, attemptNo, usage);
      case Blocks(other) => OtherBlockLeavesAlone(t, p, other);
      case Cancels(id, actor, actorIsSystem) => OtherCancelLeavesAlone(t, p, id, actor, actorIsSystem);
      case _ => OtherRowsLeaveAlone(t, p, transaction);
    }
    hide Undisturbed, Prepare, Dispatch, Succeed, Fail, LeaveUnknown, Block, Retry, Cancel, L.Execute, SoleUser;
  }

  lemma HoldKeptReflexive(l: L.Ledger, hold: nat, settleKey: string)
    ensures HoldKept(l, l, hold, settleKey)
  {
  }

  lemma HoldKeptKeepsState(a: L.Ledger, b: L.Ledger, p: Prepared)
    requires Prepaid(p) && p.reservation.Some? ==> HoldKept(a, b, p.reservation.value, SettleKey(p.executionId))
    ensures Funded(a, p) ==> Funded(b, p)
    ensures GivenBack(a, p) ==> GivenBack(b, p)
  {
    hide L.FindJournal;
  }

  /** The run stands where it stood. */
  lemma UndisturbedStays(a: Tables, b: Tables, p: Prepared, n: nat)
    requires Undisturbed(a, b, p)
    ensures Waiting(a, p, n) ==> Waiting(b, p, n)
    ensures Sent(a, p, n) ==> Sent(b, p, n)
    ensures CancelledFirst(a, p) ==> CancelledFirst(b, p)
  {
    hide Funded, GivenBack, HoldKept, SoleUser;
    HoldKeptKeepsState(a.ledger, b.ledger, p);
  }

  /** A cancel of the run's own execution works exactly before anything was sent. */
  lemma OwnCancel(t: Tables, p: Prepared, n: nat, actor: string, actorIsSystem: bool)
    ensures Waiting(t, p, n) ==>
      var b := Cancel(t, p.executionId, actor, actorIsSystem).0; Waiting(b, p, n) || (n == 0 && CancelledFirst(b, p))
    ensures Sent(t, p, n) || CancelledFirst(t, p) ==> Cancel(t, p.executionId, actor, actorIsSystem).0 == t
  {
    if Waiting(t, p, n) && n == 0 {
      hide Of, L.FindJournal;
      OfAppend(t.events, Row(p.executionId, ExecutionCancelled), p.executionId);
      ReleasingWorks(t.ledger, p);
      assert Retried(0) == [] && Sendings(0) + [ExecutionCancelled] == [ExecutionProposed, ExecutionCancelled];
    }
  }

  /** Where the next attempt may start: waiting, or cancelled before anything was sent. */
  ghost predicate Open(t: Tables, p: Prepared, n: nat) {
    Waiting(t, p, n) || (n == 0 && CancelledFirst(t, p))
  }

  lemma OtherKeepsRun(t: Tables, p: Prepared, n: nat, transaction: Transaction)
    requires IsOther(p, transaction)
    ensures Open(t, p, n) ==> Open(Commit(t, transaction), p, n)
    ensures Sent(t, p, n) ==> Sent(Commit(t, transaction), p, n)
  {
    hide IsOther, Rows, Funded, GivenBack, Cancel, Undisturbed, Prepare, Dispatch, Succeed, Fail, LeaveUnknown, Block, Retry;
    if Open(t, p, n) || Sent(t, p, n) {
      InTables(t, p, n);
      if transaction.Cancels? && transaction.executionId == p.executionId {
        OwnCancel(t, p, n, transaction.actor, transaction.actorIsSystem);
      } else {
        OtherLeavesAlone(t, p, transaction);
        UndisturbedStays(t, Commit(t, transaction), p, n);
      }
    }
  }

  /** Whatever other transactions commit in between, the run stands where it stood, or was cancelled before its start. */
  lemma {:induction false} OthersKeepRun(t: Tables, p: Prepared, n: nat, others: seq<Transaction>)
    requires AllOther(p, others)
    ensures Open(t, p, n) ==> Open(CommitAll(t, others), p, n)
    ensures Sent(t, p, n) ==> Sent(CommitAll(t, others), p, n)
  {
    hide IsOther, Open, Sent, Commit;
    if others == [] {
    } else {
      OthersKeepRun(t, p, n, others[..|others| - 1]);
      OtherKeepsRun(CommitAll(t, others[..|others| - 1]), p, n, others[|others| - 1]);
    }
  }

  lemma InTables(t: Tables, p: Prepared, n: nat)
    requires Open(t, p, n) || Sent(t, p, n)
    ensures p.executionId in t.executions && SoleUser(t.executions, p)
  {
  }

  // ---- The run's own transactions ----

  /** No execution was prepared on the reservation that is offered. */
  ghost predicate IsFreeHold(executions: map<string, Execution>, plan: Plan, input: InferInput) {
    plan.billing == PlatformPrepaid && input.reservationId.Some? ==>
      forall id :: id in executions ==> executions[id].reservation != input.reservationId
  }

  lemma PreparedIsWaiting(t: Tables, executionId: string, payer: string, plan: Plan, input: InferInput, billingDate: string)
    requires Fresh(t, executionId) && LedgerOk(t.ledger)
    requires Prepare(t, executionId, payer, plan, input, billingDate).1.Ok?
    requires IsFreeHold(t.executions, plan, input)
    ensures var (b, reply) := Prepare(t, executionId, payer, plan, input, billingDate); Waiting(b, reply.value, 0)
  {
    hide L.FindJournal, Of, JournalOk, FeeOk, FeeIsRecorded, Solvent;
    OfAppend(t.events, Row(executionId, ExecutionProposed), executionId);
    if plan.billing == PlatformPrepaid {
      assert ReservationOk(t.ledger, input.reservationId.value);
    }
    hide LedgerOk;
    assert Retried(0) == [] && Sendings(0) == [ExecutionProposed];
  }

  /** An execution id that nothing mentions yet. */
  ghost predicate Fresh(t: Tables, executionId: string) {
    && executionId !in t.executions && executionId !in t.reconciliation
    && Of(t.attempts, executionId) == [] && Of(t.receipts, executionId) == [] && Of(t.events, executionId) == []
    && L.FindJournal(t.ledger.journals, ChargeKey(SettleKey(executionId))).None?
  }

  lemma PrepareReplies(t: Tables, executionId: string, payer: string, plan: Plan, input: InferInput, billingDate: string)
    ensures var problem := PrepareProblem(plan, input, FeePaid(t.ledger, payer, billingDate),
                                          HoldOf(t.ledger, payer, input.reservationId));
      var (b, reply) := Prepare(t, executionId, payer, plan, input, billingDate);
      if problem.Some? then b == t && reply == Err(problem.value)
      else RequestedOutput(plan, input) > 0 && reply == Ok(PreparedFor(executionId, payer, plan, input, billingDate))
           && b.ledger == t.ledger
  {
  }

  lemma DispatchKeepsLedger(t: Tables, p: Prepared, attemptNo: nat, c: Conditions)
    ensures Dispatch(t, p, attemptNo, c).0.ledger == t.ledger
  {
  }

  lemma LedgerStaysOk(t: Tables, transactions: seq<Transaction>)
    ensures LedgerOk(t.ledger) ==> LedgerOk(CommitAll(t, transactions).ledger)
  {
    hide LedgerOk;
    if LedgerOk(t.ledger) {
      CommitAllKeepsLedgerOk(t, transactions);
    }
  }

  /**
   Everything that must hold the moment an attempt is sent: the execution still waits, its identity is
   active, its day is today and paid for, the payer has something left to spend, the route is open, and a
   platform-paid one still has its own active hold over its whole authorization.
   */
  predicate MayDispatch(t: Tables, p: Prepared, c: Conditions) {
    && p.executionId in t.executions && t.executions[p.executionId].status in {Proposed, Dispatched}
    && c.authenticated && c.today == p.billingDate && c.routeActive
    && L.FeeKey(p.payer, p.billingDate) in t.ledger.fees
    && p.payer in t.ledger.wallets && L.Available(t.ledger, p.payer) > 0
    && (Prepaid(p) ==>
          && p.reservation.Some? && L.Owns(t.ledger, p.payer, p.reservation.value)
          && t.ledger.reservations[p.reservation.value].status == L.Active
          && p.maxCharge <= t.ledger.reservations[p.reservation.value].amount)
  }

  /** An attempt is sent exactly when it may be, and then is on record with its event; otherwise nothing changes. */
  lemma DispatchesAreAllowed(t: Tables, p: Prepared, attemptNo: nat, c: Conditions)
    ensures var (b, problem) := Dispatch(t, p, attemptNo, c);
      && (problem.None? <==> MayDispatch(t, p, c))
      && (problem.Some? ==> b == t)
      && (problem.None? ==>
            && b.ledger == t.ledger && b.receipts == t.receipts && b.reconciliation == t.reconciliation
            && b.attempts == t.attempts + [Row(p.executionId, Attempt(attemptNo, Started))]
            && b.events == t.events + [Row(p.executionId, ExecutionDispatched)]
            && b.executions == t.executions[p.executionId := t.executions[p.executionId].(status := Dispatched)])
  {
    hide L.Available;
  }

  /** What an ended attempt leaves: its execution, its own attempt row, at most one receipt, and the event. */
  predicate EndsWith(t: Tables, b: Tables, p: Prepared, attemptNo: nat, status: ExecutionStatus, attempt: AttemptStatus,
                     event: Event, charge: nat, receipt: Option<Receipt>)
  {
    && b.executions == (if p.executionId !in t.executions then t.executions
                        else t.executions[p.executionId := t.executions[p.executionId].(
                          status := status, finalCharge := Some(charge))])
    && ClosesOnly(t, b, p, attemptNo, attempt)
    && b.receipts == t.receipts + (if receipt.None? then [] else [Row(p.executionId, receipt.value)])
    && b.events == t.events + [Row(p.executionId, event)] && b.reconciliation == t.reconciliation
  }

  predicate ClosesOnly(t: Tables, b: Tables, p: Prepared, attemptNo: nat, attempt: AttemptStatus) {
    && |b.attempts| == |t.attempts|
    && forall i :: 0 <= i < |t.attempts| ==>
         var own := t.attempts[i].executionId == p.executionId && t.attempts[i].data.attemptNo == attemptNo;
         b.attempts[i] == if own then Row(p.executionId, Attempt(attemptNo, attempt)) else t.attempts[i]
  }

  /** Measured usage is charged exactly when it was authorized and, platform-paid, its hold can be settled at it. */
  predicate MayCharge(t: Tables, p: Prepared, charge: nat) {
    && charge <= p.maxCharge
    && (Prepaid(p) ==>
          && p.reservation.Some?
          && L.Settle(t.ledger, p.payer, p.reservation.value, charge, SettleKey(p.executionId), p.payer).reply.Ok?)
  }

  function Charged(t: Tables, p: Prepared, charge: nat): L.Ledger {
    if p.plan.billing != PlatformPrepaid || p.reservation.None? then t.ledger
    else L.Settle(t.ledger, p.payer, p.reservation.value, charge, SettleKey(p.executionId), p.payer).after
  }

  /** A success, or a failure with measured usage, writes one receipt at its charge; beyond the authorization nothing is written. */
  lemma MeasuredEndsMean(t: Tables, p: Prepared, attemptNo: nat, usage: Usage)
    ensures var charge := ChargeFor(p.plan, usage);
      var receipt := Some(Receipt(attemptNo, usage, charge, p.plan.billing != PlatformPrepaid));
      var (b, problem) := Succeed(t, p, attemptNo, usage);
      var (c, failed) := Fail(t, p, attemptNo, Some(usage));
      && (problem.None? <==> MayCharge(t, p, charge)) && (failed.None? <==> MayCharge(t, p, charge))
      && (problem.Some? ==> b == t) && (failed.Some? ==> c == t)
      && (MayCharge(t, p, charge) ==>
            && b.ledger == Charged(t, p, charge) && c.ledger == Charged(t, p, charge)
            && EndsWith(t, b, p, attemptNo, Succeeded, AttemptSucceeded, ExecutionSucceeded, charge, receipt)
            && EndsWith(t, c, p, attemptNo, Failed, AttemptFailed, ExecutionFailed, charge, receipt))
  {
    hide L.Settle, ChargeFor;
  }

  /** Without measured usage a failure gives the hold back and charges nothing; an unknown outcome keeps it. */
  lemma UnmeasuredEndsMean(t: Tables, p: Prepared, attemptNo: nat)
    ensures var (b, problem) := Fail(t, p, attemptNo, None);
      var holds := Prepaid(p) && p.reservation.Some?;
      && (problem.None? <==> (holds ==> L.Release(t.ledger, p.payer, p.reservation.value, p.payer).reply.Ok?))
      && (problem.Some? ==> b == t)
      && (problem.None? ==>
            && b.ledger == (if holds then L.Release(t.ledger, p.payer, p.reservation.value, p.payer).after else t.ledger)
            && EndsWith(t, b, p, attemptNo, Failed, AttemptFailed, ExecutionFailed, 0, None))
    ensures var b := LeaveUnknown(t, p, attemptNo);
      && b.ledger == t.ledger && b.receipts == t.receipts && ClosesOnly(t, b, p, attemptNo, AttemptUnknown)
      && b.executions == (if p.executionId !in t.executions then t.executions
                          else t.executions[p.executionId := t.executions[p.executionId].(status := OutcomeUnknown)])
      && b.events == t.events + [Row(p.executionId, ExecutionOutcomeUnknown)]
      && b.reconciliation == t.reconciliation + {p.executionId}
    ensures var b := Retry(t, p, attemptNo); b == t.(attempts := b.attempts) && ClosesOnly(t, b, p, attemptNo, AttemptFailed)
  {
    hide L.Release;
  }

  /** A blocked dispatch gives an active hold of the payer back, charges nothing and fails the execution. */
  lemma BlocksMean(t: Tables, p: Prepared)
    ensures var (b, problem) := Block(t, p);
      var held := Prepaid(p) && p.reservation.Some? && L.Owns(t.ledger, p.payer, p.reservation.value)
                  && t.ledger.reservations[p.reservation.value].status == L.Active;
      && (problem.Some? ==> b == t)
      && (problem.None? <==> (held ==> p.payer in t.ledger.wallets))
      && (problem.None? ==>
            && b == t.(ledger := if held then L.Release(t.ledger, p.payer, p.reservation.value, p.payer).after else t.ledger,
                       executions := if p.executionId !in t.executions then t.executions
                                     else t.executions[p.executionId := t.executions[p.executionId].(status := Failed)],
                       events := t.events + [Row(p.executionId, ExecutionFailed)]))
  {
  }

  /** The payer, or a SYSTEM actor for an execution without a hold, cancels what was not sent; nothing else is changed by asking. */
  lemma CancelsMean(t: Tables, executionId: string, actor: string, actorIsSystem: bool)
    requires executionId in t.executions
    ensures var (b, reply) := Cancel(t, executionId, actor, actorIsSystem);
      var row := t.executions[executionId];
      && (b != t ==> reply == Ok(CancelReply(true, false)))
      && (reply == Ok(CancelReply(true, false)) ==>
            && row.status == Proposed && (actor == row.payer || (actorIsSystem && row.reservation.None?))
            && executionId in b.executions && b.executions[executionId] == row.(status := Cancelled))
      && (row.status == Proposed && (actor == row.payer || actorIsSystem) && row.reservation.None? ==>
            reply == Ok(CancelReply(true, false)))
      && (row.status == Proposed && actor == row.payer && row.reservation.Some?
          && actor in t.ledger.wallets && L.Owns(t.ledger, actor, row.reservation.value)
          && t.ledger.reservations[row.reservation.value].status == L.Active ==>
            reply == Ok(CancelReply(true, false)))
      && (row.status == Dispatched && (actor == row.payer || actorIsSystem) ==> reply == Ok(CancelReply(false, false)))
      && (row.status !in {Proposed, Dispatched} && (actor == row.payer || actorIsSystem) ==>
            reply == Ok(CancelReply(row.status == Cancelled, true)))
      && (actor != row.payer && !actorIsSystem ==> reply == Err(CancelForbidden))
  {
    assert t.events + [Row(executionId, ExecutionCancelled)] != t.events;
  }

  lemma DispatchSends(t: Tables, p: Prepared, n: nat, c: Conditions)
    requires Open(t, p, n)
    ensures var (b, problem) := Dispatch(t, p, n + 1, c);
      && (problem.None? ==> Sent(b, p, n + 1))
      && (problem.Some? ==> b == t)
      && (CancelledFirst(t, p) ==> problem == Some(ExecutionNotDispatchable))
  {
    hide Of, L.FindJournal, L.Available;
    OfAppend(t.attempts, Row(p.executionId, Attempt(n + 1, Started)), p.executionId);
    OfAppend(t.events, Row(p.executionId, ExecutionDispatched), p.executionId);
    assert Sendings(n) + [ExecutionDispatched] == Sendings(n + 1);
  }

  lemma BlockEnds(t: Tables, p: Prepared, n: nat)
    requires Open(t, p, n)
    ensures var (b, thrown) := Block(t, p);
      thrown.None? && (EndedBlocked(b, p, n) || (n == 0 && EndedCancelled(b, p)))
  {
    hide Of, L.FindJournal, SoleUser;
    OfAppend(t.events, Row(p.executionId, ExecutionFailed), p.executionId);
    if Waiting(t, p, n) {
      ReleasingWorks(t.ledger, p);
    }
  }

  lemma ClosesLast(n: nat, status: AttemptStatus)
    requires n > 0
    ensures ClosedOf(Retried(n - 1) + [Attempt(n, Started)], n, status) == Retried(n - 1) + [Attempt(n, status)]
  {
  }

  lemma RetryWaits(t: Tables, p: Prepared, n: nat)
    requires Sent(t, p, n)
    ensures Waiting(Retry(t, p, n), p, n)
  {
    hide Of, L.FindJournal, SoleUser;
    OfClosed(t.attempts, p.executionId, n, AttemptFailed, p.executionId);
    ClosesLast(n, AttemptFailed);
    assert Retried(n - 1) + [Attempt(n, AttemptFailed)] == Retried(n);
  }

  /** The rows a finalizing transaction leaves. */
  lemma FinalRows(t: Tables, p: Prepared, n: nat, status: AttemptStatus, event: Event, receipt: Receipt)
    requires Sent(t, p, n)
    ensures Of(Closed(t.attempts, p.executionId, n, status), p.executionId) == Retried(n - 1) + [Attempt(n, status)]
    ensures Of(t.events + [Row(p.executionId, event)], p.executionId) == Sendings(n) + [event]
    ensures Of(t.receipts + [Row(p.executionId, receipt)], p.executionId) == [receipt]
  {
    OfClosed(t.attempts, p.executionId, n, status, p.executionId);
    ClosesLast(n, status);
    OfAppend(t.events, Row(p.executionId, event), p.executionId);
    OfAppend(t.receipts, Row(p.executionId, receipt), p.executionId);
  }

  /** An end with a known charge, whether the hold was settled at it or given back. */
  lemma FinishEnds(t: Tables, p: Prepared, n: nat, reply: ProviderReply, closed: L.Done)
    requires Sent(t, p, n) && !LeavesDoubt(p, reply) && closed.reply.Ok?
    requires var receipts := ReceiptsAfter(p, n, reply);
      if receipts == [] then GivenBack(closed.after, p)
      else receipts[0].charge <= p.maxCharge && SettledAt(closed.after, p, receipts[0].charge)
    ensures var receipts := ReceiptsAfter(p, n, reply);
      var (b, thrown) := Finish(t, p, n, closed, EndingFor(p, reply), if receipts == [] then 0 else receipts[0].charge,
                                if receipts == [] then None else Some(receipts[0]));
      thrown.None? && EndedBy(b, p, n, reply)
  {
    hide Of, SettledAt, GivenBack, Funded, SoleUser, Closed, ReceiptsAfter, Retried, Sendings, IsAnswer, Prepaid;
    var receipts, ending := ReceiptsAfter(p, n, reply), EndingFor(p, reply);
    assert ending != DOUBT && ending.status != OutcomeUnknown;
    FinalRows(t, p, n, ending.attempt, ending.event, if receipts == [] then Receipt(0, Usage(0, 0), 0, false) else receipts[0]);
    hide LeavesDoubt, EndingFor;
    assert |receipts| <= 1;
  }

  lemma ByokIsFree(p: Prepared, usage: Usage)
    ensures !Prepaid(p) ==> ChargeFor(p.plan, usage) == 0
  {
  }

  lemma SuccessEnds(t: Tables, p: Prepared, n: nat, reply: ProviderReply)
    requires Sent(t, p, n) && !LeavesDoubt(p, reply) && IsAnswer(p, reply)
    ensures var (b, thrown) := Succeed(t, p, n, reply.usage.value); thrown.None? && EndedBy(b, p, n, reply)
  {
    var charge := ChargeFor(p.plan, reply.usage.value);
    SettlingWorks(t.ledger, p, charge);
    hide Of, SettledAt, Funded, SettleHold, SoleUser, Rows, ChargeFor, EndedBy, Finish;
    FinishEnds(t, p, n, reply, SettleHold(t.ledger, p, charge));
  }

  lemma FailureEnds(t: Tables, p: Prepared, n: nat, reply: ProviderReply)
    requires Sent(t, p, n) && !LeavesDoubt(p, reply) && !IsAnswer(p, reply)
    ensures var (b, thrown) := Fail(t, p, n, UsageOf(reply)); thrown.None? && EndedBy(b, p, n, reply)
  {
    ReleasingWorks(t.ledger, p);
    if UsageOf(reply).Some? {
      SettlingWorks(t.ledger, p, ChargeFor(p.plan, UsageOf(reply).value));
    }
    hide Of, SettledAt, GivenBack, Funded, SettleHold, ReleaseHold, SoleUser, Rows, ChargeFor, EndedBy, Finish, IsAnswer;
    FinishEnds(t, p, n, reply, if UsageOf(reply).Some? then SettleHold(t.ledger, p, ChargeFor(p.plan, UsageOf(reply).value))
                               else ReleaseHold(t.ledger, p));
  }

  lemma DoubtEnds(t: Tables, p: Prepared, n: nat, reply: ProviderReply)
    requires Sent(t, p, n) && LeavesDoubt(p, reply)
    ensures EndedBy(LeaveUnknown(t, p, n), p, n, reply)
  {
    FinalRows(t, p, n, AttemptUnknown, ExecutionOutcomeUnknown, Receipt(0, Usage(0, 0), 0, false));
    hide Of, SettledAt, GivenBack, Funded, SoleUser, Closed, ChargeFor, Retried, Sendings;
  }

  ghost predicate Ended(t: Tables, p: Prepared, n: nat, last: ProviderReply) {
    || EndedBy(t, p, n, last)
    || EndedBlocked(t, p, n)
    || (n == 0 && EndedCancelled(t, p))
  }

  /**
   However a platform-paid run ends: exactly its n attempts are on record and none is left open, at most
   one receipt is, and the hold matches the status. It is settled at the receipt's charge, given back
   without a receipt, and kept for reconciliation when the outcome is unknown. A cancel that was
   accepted means that nothing was sent.
   */
  lemma EndsInStep(t: Tables, p: Prepared, n: nat, last: ProviderReply)
    requires Ended(t, p, n, last) && Prepaid(p)
    ensures var attempts, receipts := Of(t.attempts, p.executionId), Of(t.receipts, p.executionId);
      var status, hold := t.executions[p.executionId].status, t.ledger.reservations[p.reservation.value];
      && |attempts| == n && (forall i :: 0 <= i < n ==> attempts[i].attemptNo == i + 1 && attempts[i].status != Started)
      && |receipts| <= 1 && (forall r :: r in receipts ==> r.charge == ChargeFor(p.plan, r.usage) <= p.maxCharge)
      && status in {Succeeded, Failed, OutcomeUnknown}
      && (status == Succeeded ==> receipts != [])
      && (status == OutcomeUnknown ==> receipts == [] && hold.status == L.Active && p.executionId in t.reconciliation)
      && (status != OutcomeUnknown && receipts != [] ==>
            hold.status == L.Settled && hold.settledAmount == Some(receipts[0].charge))
      && (status != OutcomeUnknown && receipts == [] ==> hold.status == L.Released)
      && (ExecutionCancelled in Of(t.events, p.executionId) ==> n == 0 && receipts == [])
  {
    hide Of, L.FindJournal, ChargeFor;
  }

  // ---- The ledger stays sound ----

  lemma CommitKeepsLedgerOk(t: Tables, transaction: Transaction)
    requires LedgerOk(t.ledger)
    ensures LedgerOk(Commit(t, transaction).ledger)
  {
    hide LedgerOk, Extends, L.Execute, HoldOf, PrepareProblem, DispatchProblem, Closed, ChargeFor;
    match transaction
    case OnLedger(actor, command) => ExecuteKeepsOk(t.ledger, actor, command);
    case Succeeds(p, _, usage) => HoldClosesOk(t.ledger, p, ChargeFor(p.plan, usage));
    case Fails(p, _, usage) => HoldClosesOk(t.ledger, p, if usage.Some? then ChargeFor(p.plan, usage.value) else 0);
    case Blocks(p) => HoldClosesOk(t.ledger, p, 0);
    case Cancels(id, actor, _) =>
      if id in t.executions && t.executions[id].reservation.Some? {
        var row := t.executions[id];
        ExecuteKeepsOk(t.ledger, actor, L.ReleaseCommand(row.payer, row.reservation.value));
      }
    case _ =>
  }

  lemma EndKeepsLedgerOk(t: Tables, p: Prepared, attemptNo: nat, usage: Option<Usage>)
    requires LedgerOk(t.ledger)
    ensures usage.Some? ==> LedgerOk(Succeed(t, p, attemptNo, usage.value).0.ledger)
    ensures LedgerOk(Fail(t, p, attemptNo, usage).0.ledger) && LedgerOk(Block(t, p).0.ledger)
  {
    hide LedgerOk, SettleHold, ReleaseHold, HoldOf, ChargeFor, ReceiptFor, Closed;
    HoldClosesOk(t.ledger, p, if usage.Some? then ChargeFor(p.plan, usage.value) else 0);
  }

  lemma HoldClosesOk(l: L.Ledger, p: Prepared, charge: nat)
    requires LedgerOk(l)
    ensures LedgerOk(SettleHold(l, p, charge).after) && LedgerOk(ReleaseHold(l, p).after)
  {
    hide LedgerOk, Extends, L.Execute;
    if p.reservation.Some? {
      ExecuteKeepsOk(l, p.payer, L.SettleCommand(p.payer, p.reservation.value, charge, SettleKey(p.executionId)));
      ExecuteKeepsOk(l, p.payer, L.ReleaseCommand(p.payer, p.reservation.value));
    }
  }

  lemma {:induction false} CommitAllKeepsLedgerOk(t: Tables, transactions: seq<Transaction>)
    requires LedgerOk(t.ledger)
    ensures LedgerOk(CommitAll(t, transactions).ledger)
  {
    hide LedgerOk, Commit;
    if transactions == [] {
    } else {
      var before := CommitAll(t, transactions[..|transactions| - 1]);
      CommitAllKeepsLedgerOk(t, transactions[..|transactions| - 1]);
      CommitKeepsLedgerOk(before, transactions[|transactions| - 1]);
    }
  }

  // ---- Cancelling beside anything ----

  /** What is true of an execution at any moment, whatever transactions are committed in whatever order. */
  ghost predicate LifeOk(t: Tables, executionId: string) {
    if executionId !in t.executions then
      Of(t.attempts, executionId) == [] && Of(t.receipts, executionId) == [] && Of(t.events, executionId) == []
    else
      var row := t.executions[executionId];
      && (row.status == Proposed || ExecutionCancelled in Of(t.events, executionId) ==>
            && Of(t.attempts, executionId) == [] && Of(t.receipts, executionId) == []
            && ExecutionDispatched !in Of(t.events, executionId))
      && (ExecutionCancelled in Of(t.events, executionId) ==>
            && row.status !in {Proposed, Dispatched}
            && (row.reservation.Some? ==>
                  && row.reservation.value < |t.ledger.reservations|
                  && t.ledger.reservations[row.reservation.value].status == L.Released))
  }

  lemma ReleasedStays(l: L.Ledger, actor: string, command: L.Command, hold: Option<nat>)
    requires hold.Some? ==> hold.value < |l.reservations| && l.reservations[hold.value].status == L.Released
    ensures var b := L.Execute(l, actor, command).after;
      hold.Some? ==> hold.value < |b.reservations| && b.reservations[hold.value].status == L.Released
  {
    if hold.Some? {
      ClosedHoldStays(l, actor, command, hold.value);
    }
  }

  lemma ClosingKeepsReleased(l: L.Ledger, p: Prepared, charge: nat, hold: Option<nat>)
    requires hold.Some? ==> hold.value < |l.reservations| && l.reservations[hold.value].status == L.Released
    ensures var b := SettleHold(l, p, charge).after;
      hold.Some? ==> hold.value < |b.reservations| && b.reservations[hold.value].status == L.Released
    ensures var b := ReleaseHold(l, p).after;
      hold.Some? ==> hold.value < |b.reservations| && b.reservations[hold.value].status == L.Released
  {
    hide L.Execute;
    if p.reservation.Some? {
      ReleasedStays(l, p.payer, L.SettleCommand(p.payer, p.reservation.value, charge, SettleKey(p.executionId)), hold);
      ReleasedStays(l, p.payer, L.ReleaseCommand(p.payer, p.reservation.value), hold);
    }
  }

  lemma DispatchKeepsLife(t: Tables, p: Prepared, attemptNo: nat, c: Conditions, executionId: string)
    requires LifeOk(t, executionId)
    ensures LifeOk(Dispatch(t, p, attemptNo, c).0, executionId)
  {
    hide HoldOf, Of, L.Available;
    OfAppend(t.events, Row(p.executionId, ExecutionDispatched), executionId);
    OfAppend(t.attempts, Row(p.executionId, Attempt(attemptNo, Started)), executionId);
  }

  /** An attempt that is ended: the execution moves on, if it is this one, and only to an end. */
  ghost predicate EndOf(a: Tables, b: Tables, p: Prepared, executionId: string) {
    && Of(a.attempts, p.executionId) != []
    && (executionId != p.executionId ==>
          Of(b.attempts, executionId) == Of(a.attempts, executionId) && Of(b.receipts, executionId) == Of(a.receipts, executionId)
          && Of(b.events, executionId) == Of(a.events, executionId))
    && (ExecutionCancelled in Of(b.events, executionId) ==> ExecutionCancelled in Of(a.events, executionId))
    && (executionId in b.executions <==> executionId in a.executions)
    && (executionId in a.executions ==>
          && b.executions[executionId].reservation == a.executions[executionId].reservation
          && (b.executions[executionId].status == a.executions[executionId].status
              || (executionId == p.executionId && b.executions[executionId].status !in {Proposed, Dispatched})))
    && ReleasedStay(a.ledger, b.ledger)
  }

  ghost predicate ReleasedStay(a: L.Ledger, b: L.Ledger) {
    forall i {:trigger b.reservations[i]} {:trigger a.reservations[i]} ::
      0 <= i < |a.reservations| && a.reservations[i].status == L.Released ==>
        i < |b.reservations| && b.reservations[i].status == L.Released
  }

  lemma EndKeepsLife(a: Tables, b: Tables, p: Prepared, executionId: string)
    requires LifeOk(a, executionId) && EndOf(a, b, p, executionId)
    ensures LifeOk(b, executionId)
  {
    hide Of;
  }

  lemma ClosingKeepsAllReleased(l: L.Ledger, p: Prepared, charge: nat)
    ensures ReleasedStay(l, SettleHold(l, p, charge).after) && ReleasedStay(l, ReleaseHold(l, p).after)
  {
    hide SettleHold, ReleaseHold;
    forall i | 0 <= i < |l.reservations| && l.reservations[i].status == L.Released
      ensures i < |SettleHold(l, p, charge).after.reservations|
        && SettleHold(l, p, charge).after.reservations[i].status == L.Released
      ensures i < |ReleaseHold(l, p).after.reservations| && ReleaseHold(l, p).after.reservations[i].status == L.Released
    {
      ClosingKeepsReleased(l, p, charge, Some(i));
    }
  }

  lemma FinishIsEnd(t: Tables, p: Prepared, attemptNo: nat, closed: L.Done, ending: Ending, charge: nat,
                    receipt: Option<Receipt>, executionId: string)
    requires IsStarted(t, p, attemptNo) && ReleasedStay(t.ledger, closed.after) && closed.reply.Ok?
    requires ending == SUCCESS || ending == FAILURE
    ensures EndOf(t, Finish(t, p, attemptNo, closed, ending, charge, receipt).0, p, executionId)
  {
    hide Of, Closed, ClosedOf, ReleasedStay;
    StartedRow(t, p, attemptNo, ending.attempt, ending.event, executionId);
    if receipt.Some? {
      OfAppend(t.receipts, Row(p.executionId, receipt.value), executionId);
    }
  }

  lemma OtherwiseEnds(t: Tables, p: Prepared, attemptNo: nat, executionId: string)
    requires IsStarted(t, p, attemptNo)
    ensures EndOf(t, LeaveUnknown(t, p, attemptNo), p, executionId)
    ensures EndOf(t, Retry(t, p, attemptNo), p, executionId)
  {
    StartedRow(t, p, attemptNo, AttemptFailed, ExecutionFailed, executionId);
    StartedRow(t, p, attemptNo, AttemptUnknown, ExecutionOutcomeUnknown, executionId);
    hide Of, Closed, ClosedOf;
  }

  lemma PrepareKeepsLife(t: Tables, id: string, payer: string, plan: Plan, input: InferInput, date: string, executionId: string)
    requires LifeOk(t, executionId)
    ensures id !in t.executions ==> LifeOk(Prepare(t, id, payer, plan, input, date).0, executionId)
  {
    OfAppend(t.events, Row(id, ExecutionProposed), executionId);
    hide Of, PrepareProblem, HoldOf;
  }

  lemma CommitKeepsLife(t: Tables, transaction: Transaction, executionId: string)
    requires LifeOk(t, executionId)
    ensures LifeOk(Commit(t, transaction), executionId)
  {
    hide LifeOk, Dispatch, Prepare, Retry, Succeed, Fail, LeaveUnknown, Block, Cancel, L.Execute, IsStarted;
    match transaction
    case OnLedger(actor, command) => LedgerKeepsLife(t, actor, command, executionId);
    case Prepares(id, payer, plan, input, date) => PrepareKeepsLife(t, id, payer, plan, input, date, executionId);
    case Dispatches(p, attemptNo, c) => DispatchKeepsLife(t, p, attemptNo, c, executionId);
    case Retries(p, attemptNo) => OtherwiseKeepsLife(t, p, attemptNo, executionId);
    case EndsUnknown(p, attemptNo) => OtherwiseKeepsLife(t, p, attemptNo, executionId);
    case Succeeds(p, attemptNo, usage) => FinishKeepsLife(t, p, attemptNo, Some(usage), executionId);
    case Fails(p, attemptNo, usage) => FinishKeepsLife(t, p, attemptNo, usage, executionId);
    case Blocks(p) => BlockKeepsLife(t, p, executionId);
    case Cancels(id, actor, actorIsSystem) => CancelKeepsLife(t, id, actor, actorIsSystem, executionId);
  }

  lemma OtherwiseKeepsLife(t: Tables, p: Prepared, attemptNo: nat, executionId: string)
    requires LifeOk(t, executionId)
    ensures IsStarted(t, p, attemptNo) ==>
      LifeOk(LeaveUnknown(t, p, attemptNo), executionId) && LifeOk(Retry(t, p, attemptNo), executionId)
  {
    hide LifeOk, EndOf, LeaveUnknown, Retry, IsStarted;
    if IsStarted(t, p, attemptNo) {
      OtherwiseEnds(t, p, attemptNo, executionId);
      EndKeepsLife(t, LeaveUnknown(t, p, attemptNo), p, executionId);
      EndKeepsLife(t, Retry(t, p, attemptNo), p, executionId);
    }
  }

  lemma FinishKeepsLife(t: Tables, p: Prepared, attemptNo: nat, usage: Option<Usage>, executionId: string)
    requires LifeOk(t, executionId)
    ensures IsStarted(t, p, attemptNo) ==>
      && (usage.Some? ==> LifeOk(Succeed(t, p, attemptNo, usage.value).0, executionId))
      && LifeOk(Fail(t, p, attemptNo, usage).0, executionId)
  {
    hide LifeOk, EndOf, IsStarted, SettleHold, ReleaseHold, ChargeFor, ReceiptFor, ReleasedStay;
    if IsStarted(t, p, attemptNo) {
      var charge := if usage.Some? then ChargeFor(p.plan, usage.value) else 0;
      var receipt := if usage.Some? then Some(ReceiptFor(p, attemptNo, usage.value)) else None;
      ClosingKeepsAllReleased(t.ledger, p, charge);
      FinishedKeepsLife(t, p, attemptNo, SettleHold(t.ledger, p, charge), SUCCESS, charge, receipt, executionId);
      FinishedKeepsLife(t, p, attemptNo, SettleHold(t.ledger, p, charge), FAILURE, charge, receipt, executionId);
      FinishedKeepsLife(t, p, attemptNo, ReleaseHold(t.ledger, p), FAILURE, charge, receipt, executionId);
      hide Finish;
    }
  }

  lemma FinishedKeepsLife(t: Tables, p: Prepared, attemptNo: nat, closed: L.Done, ending: Ending, charge: nat,
                          receipt: Option<Receipt>, executionId: string)
    requires LifeOk(t, executionId) && IsStarted(t, p, attemptNo) && ReleasedStay(t.ledger, closed.after)
    requires ending == SUCCESS || ending == FAILURE
    ensures LifeOk(Finish(t, p, attemptNo, closed, ending, charge, receipt).0, executionId)
  {
    hide LifeOk, EndOf, IsStarted, ReleasedStay;
    if closed.reply.Ok? {
      FinishIsEnd(t, p, attemptNo, closed, ending, charge, receipt, executionId);
      EndKeepsLife(t, Finish(t, p, attemptNo, closed, ending, charge, receipt).0, p, executionId);
    }
  }

  lemma LedgerKeepsLife(t: Tables, actor: string, command: L.Command, executionId: string)
    requires LifeOk(t, executionId)
    ensures LifeOk(t.(ledger := L.Execute(t.ledger, actor, command).after), executionId)
  {
    hide L.Execute, Of;
    if executionId in t.executions && ExecutionCancelled in Of(t.events, executionId) {
      ReleasedStays(t.ledger, actor, command, t.executions[executionId].reservation);
    }
  }

  lemma BlockKeepsLife(t: Tables, p: Prepared, executionId: string)
    requires LifeOk(t, executionId)
    ensures p.executionId in t.executions ==> LifeOk(Block(t, p).0, executionId)
  {
    OfAppend(t.events, Row(p.executionId, ExecutionFailed), executionId);
    ClosingKeepsAllReleased(t.ledger, p, 0);
    hide Of, HoldOf, SettleHold, ReleaseHold;
  }

  lemma CancelKeepsLife(t: Tables, id: string, actor: string, actorIsSystem: bool, executionId: string)
    requires LifeOk(t, executionId)
    ensures LifeOk(Cancel(t, id, actor, actorIsSystem).0, executionId)
  {
    OfAppend(t.events, Row(id, ExecutionCancelled), executionId);
    hide Of, L.Execute;
    if id in t.executions && t.executions[id].reservation.Some? {
      var row := t.executions[id];
      AcceptedReleaseReleases(t.ledger, actor, row.payer, row.reservation.value);
      if executionId in t.executions && ExecutionCancelled in Of(t.events, executionId) {
        ReleasedStays(t.ledger, actor, L.ReleaseCommand(row.payer, row.reservation.value), t.executions[executionId].reservation);
      }
    }
  }

  lemma AcceptedReleaseReleases(l: L.Ledger, actor: string, payer: string, hold: nat)
    ensures var done := L.Execute(l, actor, L.ReleaseCommand(payer, hold));
      done.reply.Ok? ==> hold < |done.after.reservations| && done.after.reservations[hold].status == L.Released
  {
  }

  /** What closing a started attempt means for the rows of an execution. */
  lemma StartedRow(t: Tables, p: Prepared, attemptNo: nat, status: AttemptStatus, event: Event, executionId: string)
    ensures IsStarted(t, p, attemptNo) ==> Of(t.attempts, p.executionId) != []
    ensures Of(Closed(t.attempts, p.executionId, attemptNo, status), executionId)
         == if executionId == p.executionId then ClosedOf(Of(t.attempts, executionId), attemptNo, status)
            else Of(t.attempts, executionId)
    ensures Of(t.events + [Row(p.executionId, event)], executionId)
         == Of(t.events, executionId) + if executionId == p.executionId then [event] else []
  {
    OfClosed(t.attempts, p.executionId, attemptNo, status, executionId);
    OfAppend(t.events, Row(p.executionId, event), executionId);
    if IsStarted(t, p, attemptNo) {
      OfMember(t.attempts, Row(p.executionId, Attempt(attemptNo, Started)));
    }
  }

  lemma {:induction false} RunKeepsLife(t: Tables, transactions: seq<Transaction>, executionId: string)
    requires LifeOk(t, executionId)
    ensures LifeOk(CommitAll(t, transactions), executionId)
    ensures ExecutionCancelled in Of(t.events, executionId) ==>
      ExecutionCancelled in Of(CommitAll(t, transactions).events, executionId)
    ensures executionId in t.executions ==>
      && executionId in CommitAll(t, transactions).executions
      && CommitAll(t, transactions).executions[executionId].reservation == t.executions[executionId].reservation
  {
    hide LifeOk, Commit, Of;
    if transactions == [] {
    } else {
      var before, last := CommitAll(t, transactions[..|transactions| - 1]), transactions[|transactions| - 1];
      RunKeepsLife(t, transactions[..|transactions| - 1], executionId);
      CommitKeepsLife(before, last, executionId);
      CommitTakesNothingBack(before, last, executionId);
    }
  }

  lemma CommitTakesNothingBack(t: Tables, transaction: Transaction, executionId: string)
    ensures ExecutionCancelled in Of(t.events, executionId) ==>
      ExecutionCancelled in Of(Commit(t, transaction).events, executionId)
    ensures executionId in t.executions ==>
      && executionId in Commit(t, transaction).executions
      && Commit(t, transaction).executions[executionId].reservation == t.executions[executionId].reservation
  {
    hide L.Execute, HoldOf, PrepareProblem, DispatchProblem, Of, Closed, ChargeFor, ReceiptFor, SettleHold, ReleaseHold;
    var b := Commit(t, transaction);
    if b.events != t.events {
      var added := b.events[|t.events|];
      assert b.events == t.events + [added];
      OfAppend(t.events, added, executionId);
    }
  }

  /**
   An execution that nothing mentioned at first, and any transactions of anybody after that: once a
   cancel of it was accepted, no attempt of it was or ever will be dispatched, no receipt written, and
   its hold stays given back.
   */
  lemma AcceptedCancelMeansNeverDispatched(first: Tables, before: seq<Transaction>, executionId: string, actor: string,
                                           actorIsSystem: bool, after: seq<Transaction>)
    requires Fresh(first, executionId)
    requires Cancel(CommitAll(first, before), executionId, actor, actorIsSystem).1 == Ok(CancelReply(true, false))
    ensures var cancelled := Cancel(CommitAll(first, before), executionId, actor, actorIsSystem).0;
      var t := CommitAll(cancelled, after);
      && executionId in t.executions && t.executions[executionId].status !in {Proposed, Dispatched}
      && Of(t.attempts, executionId) == [] && Of(t.receipts, executionId) == []
      && ExecutionDispatched !in Of(t.events, executionId)
      && var hold := t.executions[executionId].reservation;
         hold.Some? ==> hold.value < |t.ledger.reservations| && t.ledger.reservations[hold.value].status == L.Released
  {
    var t := CommitAll(first, before);
    RunKeepsLife(first, before, executionId) by {
      hide CommitAll, Of;
    }
    CancelKeepsLife(t, executionId, actor, actorIsSystem, executionId);
    AcceptedCancelIsLogged(t, executionId, actor, actorIsSystem);
    hide CommitAll, Of, Cancel;
    RunKeepsLife(Cancel(t, executionId, actor, actorIsSystem).0, after, executionId);
  }

  lemma AcceptedCancelIsLogged(t: Tables, executionId: string, actor: string, actorIsSystem: bool)
    requires Cancel(t, executionId, actor, actorIsSystem).1 == Ok(CancelReply(true, false))
    ensures var b := Cancel(t, executionId, actor, actorIsSystem).0;
      executionId in b.executions && ExecutionCancelled in Of(b.events, executionId)
  {
    OfAppend(t.events, Row(executionId, ExecutionCancelled), executionId);
    hide Of, L.Execute;
  }
}
