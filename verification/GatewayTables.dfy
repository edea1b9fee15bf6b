/**
 The gateway's tables and the transactions that change them (src/services/gateway.js and
 `cancelExecution` in src/services/p1_4.js), each as a function from the tables it finds to the tables
 it leaves. What the provider answers, and who calls what in which order, is left open.
 */
module GatewayTables {
  import opened Wrappers
  import L = Ledger
  import opened GatewayCharges
  import opened Holds

  datatype ExecutionStatus = Proposed | Dispatched | Succeeded | Failed | OutcomeUnknown | Cancelled

  datatype Execution = Execution(
    payer: string, reservation: Option<nat>, maxCharge: nat, status: ExecutionStatus, finalCharge: Option<nat>)

  datatype AttemptStatus = Started | AttemptFailed | AttemptSucceeded | AttemptUnknown

  datatype Attempt = Attempt(attemptNo: nat, status: AttemptStatus)

  datatype Receipt = Receipt(attemptNo: nat, usage: Usage, charge: nat, external: bool)

  datatype Event =
    | ExecutionProposed | ExecutionDispatched | ExecutionSucceeded | ExecutionFailed | ExecutionOutcomeUnknown
    | ExecutionCancelled

  /** A row of a table that belongs to an execution. */
  datatype Row<T> = Row(executionId: string, data: T)

  datatype Tables = Tables(
    ledger: L.Ledger, executions: map<string, Execution>, attempts: seq<Row<Attempt>>, receipts: seq<Row<Receipt>>,
    events: seq<Row<Event>>, reconciliation: set<string>)

  /** The rows of one execution, in order. */
  function Of<T>(rows: seq<Row<T>>, executionId: string): seq<T> {
    if rows == [] then []
    else
      var last := rows[|rows| - 1];
      Of(rows[..|rows| - 1], executionId) + if last.executionId == executionId then [last.data] else []
  }

  /** A provider's answer to one request. A connection that is known to have failed sent nothing. */
  datatype ProviderReply =
    | ConnectFailed
    | NoTrustworthyOutcome
    | ErrorResponse(httpStatus: int, errorUsage: Option<Usage>)
    | OkResponse(usage: Option<Usage>, hasTextOutput: bool)

  /** What is known once `prepareExecution` accepted: the plan, the limits, the day and who pays. */
  datatype Prepared = Prepared(
    executionId: string, plan: Plan, maxOutputTokens: nat, maxCharge: nat, payer: string, reservation: Option<nat>,
    billingDate: string)

  /** What a dispatch finds outside the gateway's tables. */
  datatype Conditions = Conditions(authenticated: bool, today: string, routeActive: bool)

  function SettleKey(executionId: string): string {
    "gateway:" + executionId
  }

  predicate Prepaid(p: Prepared) {
    p.plan.billing == PlatformPrepaid
  }

  // ---- Rows ----

  function WithStatus(executions: map<string, Execution>, executionId: string, status: ExecutionStatus)
    : map<string, Execution>
  {
    if executionId in executions then executions[executionId := executions[executionId].(status := status)] else executions
  }

  function WithCharge(executions: map<string, Execution>, executionId: string, status: ExecutionStatus, charge: nat)
    : map<string, Execution>
  {
    if executionId in executions
      then executions[executionId := executions[executionId].(status := status, finalCharge := Some(charge))]
    else executions
  }

  /** The attempt of one execution with one number is closed; no other row changes. */
  function Closed(attempts: seq<Row<Attempt>>, executionId: string, attemptNo: nat, status: AttemptStatus)
    : (closed: seq<Row<Attempt>>)
    ensures |closed| == |attempts|
  {
    seq(|attempts|, i requires 0 <= i < |attempts| =>
      if attempts[i].executionId == executionId && attempts[i].data.attemptNo == attemptNo
        then Row(executionId, Attempt(attemptNo, status)) else attempts[i])
  }

  // ---- prepareExecution ----

  function PreparedFor(executionId: string, payer: string, plan: Plan, input: InferInput, billingDate: string): Prepared
    requires RequestedOutput(plan, input) > 0
  {
    Prepared(executionId, plan, RequestedOutput(plan, input), input.maxCharge, payer, input.reservationId, billingDate)
  }

  predicate FeePaid(l: L.Ledger, payer: string, billingDate: string) {
    L.FeeKey(payer, billingDate) in l.fees
  }

  function Prepare(t: Tables, executionId: string, payer: string, plan: Plan, input: InferInput, billingDate: string)
    : (Tables, Result<Prepared, GatewayProblem>)
  {
    var problem := PrepareProblem(plan, input, FeePaid(t.ledger, payer, billingDate), HoldOf(t.ledger, payer, input.reservationId));
    if problem.Some? then (t, Err(problem.value))
    else
      var row := Execution(payer, input.reservationId, input.maxCharge, Proposed, None);
      (t.(executions := t.executions[executionId := row], events := t.events + [Row(executionId, ExecutionProposed)]),
       Ok(PreparedFor(executionId, payer, plan, input, billingDate)))
  }

  // ---- markAttemptDispatched ----

  function DispatchProblem(t: Tables, p: Prepared, c: Conditions): Option<GatewayProblem> {
    if p.executionId !in t.executions || t.executions[p.executionId].status !in {Proposed, Dispatched}
      then Some(ExecutionNotDispatchable)
    else if !c.authenticated then Some(Unauthenticated)
    else if p.billingDate != c.today then Some(StaleActivityTicket)
    else if !FeePaid(t.ledger, p.payer, p.billingDate) then Some(DailyFeeRequired)
    else if p.payer !in t.ledger.wallets || L.Available(t.ledger, p.payer) <= 0 then Some(NoAvailableEnergy)
    else if !c.routeActive then Some(GatewayNotAvailable)
    else if !Prepaid(p) then None
    else
      var hold := HoldOf(t.ledger, p.payer, p.reservation);
      if hold.None? || !hold.value.ownedByPayer || !hold.value.active then Some(InvalidReservation)
      else if hold.value.amount < p.maxCharge then Some(ReservationTooSmall)
      else None
  }

  function Dispatch(t: Tables, p: Prepared, attemptNo: nat, c: Conditions): (Tables, Option<GatewayProblem>) {
    var problem := DispatchProblem(t, p, c);
    if problem.Some? then (t, problem)
    else
      (t.(attempts := t.attempts + [Row(p.executionId, Attempt(attemptNo, Started))],
          executions := WithStatus(t.executions, p.executionId, Dispatched),
          events := t.events + [Row(p.executionId, ExecutionDispatched)]), None)
  }

  // ---- Ends of an attempt; an error stands for a thrown one, and leaves nothing behind ----

  function SettleHold(l: L.Ledger, p: Prepared, charge: nat): L.Done {
    if !Prepaid(p) then L.Done(l, Ok(L.Reply(None, None, false)))
    else if p.reservation.None? then L.Done(l, Err(L.ReservationNotFound))
    else L.Execute(l, p.payer, L.SettleCommand(p.payer, p.reservation.value, charge, SettleKey(p.executionId)))
  }

  function ReleaseHold(l: L.Ledger, p: Prepared): L.Done {
    if !Prepaid(p) || p.reservation.None? then L.Done(l, Ok(L.Reply(None, None, false)))
    else L.Execute(l, p.payer, L.ReleaseCommand(p.payer, p.reservation.value))
  }

  function ReceiptFor(p: Prepared, attemptNo: nat, usage: Usage): Receipt {
    Receipt(attemptNo, usage, ChargeFor(p.plan, usage), !Prepaid(p))
  }

  function Retry(t: Tables, p: Prepared, attemptNo: nat): Tables {
    t.(attempts := Closed(t.attempts, p.executionId, attemptNo, AttemptFailed))
  }

  /** What is written at an end: the status of the execution, of its last attempt, and the event. */
  datatype Ending = Ending(status: ExecutionStatus, attempt: AttemptStatus, event: Event)

  const SUCCESS := Ending(Succeeded, AttemptSucceeded, ExecutionSucceeded)
  const FAILURE := Ending(Failed, AttemptFailed, ExecutionFailed)
  const DOUBT := Ending(OutcomeUnknown, AttemptUnknown, ExecutionOutcomeUnknown)

  /** The rows of an end with a known charge, once the hold was closed. */
  function Finish(t: Tables, p: Prepared, attemptNo: nat, closed: L.Done, ending: Ending, charge: nat, receipt: Option<Receipt>)
    : (Tables, Option<GatewayProblem>)
  {
    if closed.reply.Err? then (t, Some(LedgerRefused))
    else
      (Tables(closed.after, WithCharge(t.executions, p.executionId, ending.status, charge),
              Closed(t.attempts, p.executionId, attemptNo, ending.attempt),
              if receipt.Some? then t.receipts + [Row(p.executionId, receipt.value)] else t.receipts,
              t.events + [Row(p.executionId, ending.event)], t.reconciliation), None)
  }

  function Succeed(t: Tables, p: Prepared, attemptNo: nat, usage: Usage): (Tables, Option<GatewayProblem>) {
    var charge := ChargeFor(p.plan, usage);
    if charge > p.maxCharge then (t, Some(UsageExceedsAuthorization))
    else Finish(t, p, attemptNo, SettleHold(t.ledger, p, charge), SUCCESS, charge, Some(ReceiptFor(p, attemptNo, usage)))
  }

  /** Measured usage is charged; without it the hold goes back. */
  function Fail(t: Tables, p: Prepared, attemptNo: nat, usage: Option<Usage>): (Tables, Option<GatewayProblem>) {
    if usage.None? then Finish(t, p, attemptNo, ReleaseHold(t.ledger, p), FAILURE, 0, None)
    else
      var charge := ChargeFor(p.plan, usage.value);
      if charge > p.maxCharge then (t, Some(UsageExceedsAuthorization))
      else Finish(t, p, attemptNo, SettleHold(t.ledger, p, charge), FAILURE, charge, Some(ReceiptFor(p, attemptNo, usage.value)))
  }

  function LeaveUnknown(t: Tables, p: Prepared, attemptNo: nat): Tables {
    Tables(t.ledger, WithStatus(t.executions, p.executionId, OutcomeUnknown),
           Closed(t.attempts, p.executionId, attemptNo, AttemptUnknown), t.receipts,
           t.events + [Row(p.executionId, ExecutionOutcomeUnknown)], t.reconciliation + {p.executionId})
  }

  /** Blocked before a dispatch: an active hold is released, and the execution ends FAILED from any status. */
  function Block(t: Tables, p: Prepared): (Tables, Option<GatewayProblem>) {
    var hold := HoldOf(t.ledger, p.payer, p.reservation);
    var released := if Prepaid(p) && hold.Some? && hold.value.ownedByPayer && hold.value.active
                      then ReleaseHold(t.ledger, p) else L.Done(t.ledger, Ok(L.Reply(None, None, false)));
    if released.reply.Err? then (t, Some(LedgerRefused))
    else
      (t.(ledger := released.after, executions := WithStatus(t.executions, p.executionId, Failed),
          events := t.events + [Row(p.executionId, ExecutionFailed)]), None)
  }

  // ---- cancelExecution ----

  datatype CancelReply = CancelReply(accepted: bool, replayed: bool)

  function Cancel(t: Tables, executionId: string, actor: string, actorIsSystem: bool)
    : (Tables, Result<CancelReply, GatewayProblem>)
  {
    if executionId !in t.executions then (t, Err(ExecutionNotFound))
    else
      var row := t.executions[executionId];
      if !actorIsSystem && actor != row.payer then (t, Err(CancelForbidden))
      else
        match row.status
        case Dispatched => (t, Ok(CancelReply(false, false)))
        case Proposed =>
          var cancelled := t.(executions := WithStatus(t.executions, executionId, Cancelled),
                              events := t.events + [Row(executionId, ExecutionCancelled)]);
          if row.reservation.None? then (cancelled, Ok(CancelReply(true, false)))
          else if actor != row.payer then (t, Err(CancelForbidden))
          else
            var released := L.Execute(t.ledger, actor, L.ReleaseCommand(row.payer, row.reservation.value));
            if released.reply.Err? then (t, Err(LedgerRefused))
            else (cancelled.(ledger := released.after), Ok(CancelReply(true, false)))
        case ended => (t, Ok(CancelReply(ended == Cancelled, true)))
  }

  // ---- All transactions of a world ----

  /** Attempts are ended only by the caller that dispatched them, so there is a started row to close; only prepared executions are blocked. */
  datatype Transaction =
    | OnLedger(actor: string, command: L.Command)
    | Prepares(executionId: string, payer: string, plan: Plan, input: InferInput, billingDate: string)
    | Dispatches(p: Prepared, attemptNo: nat, conditions: Conditions)
    | Retries(p: Prepared, attemptNo: nat)
    | Succeeds(p: Prepared, attemptNo: nat, measured: Usage)
    | Fails(p: Prepared, attemptNo: nat, usage: Option<Usage>)
    | EndsUnknown(p: Prepared, attemptNo: nat)
    | Blocks(p: Prepared)
    | Cancels(executionId: string, actor: string, actorIsSystem: bool)

  predicate IsStarted(t: Tables, p: Prepared, attemptNo: nat) {
    Row(p.executionId, Attempt(attemptNo, Started)) in t.attempts
  }

  /** An execution id is made up once, so preparing under a known one does not happen. */
  function Commit(t: Tables, transaction: Transaction): Tables {
    match transaction
    case OnLedger(actor, command) => t.(ledger := L.Execute(t.ledger, actor, command).after)
    case Prepares(id, payer, plan, input, date) => if id in t.executions then t else Prepare(t, id, payer, plan, input, date).0
    case Dispatches(p, attemptNo, conditions) => Dispatch(t, p, attemptNo, conditions).0
    case Retries(p, attemptNo) => if IsStarted(t, p, attemptNo) then Retry(t, p, attemptNo) else t
    case Succeeds(p, attemptNo, usage) => if IsStarted(t, p, attemptNo) then Succeed(t, p, attemptNo, usage).0 else t
    case Fails(p, attemptNo, usage) => if IsStarted(t, p, attemptNo) then Fail(t, p, attemptNo, usage).0 else t
    case EndsUnknown(p, attemptNo) => if IsStarted(t, p, attemptNo) then LeaveUnknown(t, p, attemptNo) else t
    case Blocks(p) => if p.executionId in t.executions then Block(t, p).0 else t
    case Cancels(id, actor, actorIsSystem) => Cancel(t, id, actor, actorIsSystem).0
  }

  function CommitAll(t: Tables, transactions: seq<Transaction>): Tables {
    if transactions == [] then t
    else Commit(CommitAll(t, transactions[..|transactions| - 1]), transactions[|transactions| - 1])
  }
}
