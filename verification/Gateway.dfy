/**
 The gateway as mutable tables: its transactions, and `infer` with its attempt loop
 (src/services/gateway.js). Anybody's transactions may commit between those of a run.
 */
module Gateway {
  import opened Wrappers
  import L = Ledger
  import opened LedgerInvariants
  import opened GatewayCharges
  import opened Holds
  import T = GatewayTables
  import opened GatewayRuns

  /**
   What one round of the attempt loop meets: the secret, what a dispatch checks elsewhere, the provider,
   and what others commit before the dispatch and between it and the end of the attempt.
   */
  datatype Surroundings = Surroundings(
    hasSecret: bool, conditions: T.Conditions, reply: T.ProviderReply, before: seq<T.Transaction>, during: seq<T.Transaction>)

  predicate LeftAlone(p: T.Prepared, around: Surroundings) {
    AllOther(p, around.before) && AllOther(p, around.during)
  }

  /** The secret is there when it is needed, and the attempt may be dispatched on the tables as they are. */
  predicate MaySend(t: T.Tables, p: T.Prepared, around: Surroundings) {
    (p.plan.needsCredential ==> around.hasSecret) && MayDispatch(t, p, around.conditions)
  }

  /** How a round of the loop ends: with another attempt to follow, by the provider's reply, or before its dispatch. */
  datatype Round = Again | Replied | Blocked

  class Gateway {
    var ledger: L.Ledger
    var executions: map<string, T.Execution>
    var attempts: seq<T.Row<T.Attempt>>
    var receipts: seq<T.Row<T.Receipt>>
    var events: seq<T.Row<T.Event>>
    var reconciliation: set<string>

    ghost function View(): T.Tables
      reads this
    {
      T.Tables(ledger, executions, attempts, receipts, events, reconciliation)
    }

    constructor (ledger: L.Ledger)
      ensures View() == T.Tables(ledger, map[], [], [], [], {})
    {
      this.ledger, executions, attempts, receipts, events, reconciliation := ledger, map[], [], [], [], {};
    }

    // ---- Transactions ----

    method AppendEvent(executionId: string, event: T.Event)
      modifies this`events
      ensures events == old(events) + [T.Row(executionId, event)]
    {
      events := events + [T.Row(executionId, event)];
    }

    method SetStatus(executionId: string, status: T.ExecutionStatus, charge: Option<nat>)
      modifies this`executions
      ensures executions == if charge.Some? then T.WithCharge(old(executions), executionId, status, charge.value)
                            else T.WithStatus(old(executions), executionId, status)
    {
      if executionId in executions {
        var row := executions[executionId].(status := status);
        if charge.Some? {
          row := row.(finalCharge := charge);
        }
        executions := executions[executionId := row];
      }
    }

    /** Closes the rows of one attempt, one by one. */
    method CloseAttempt(executionId: string, attemptNo: nat, status: T.AttemptStatus)
      modifies this`attempts
      ensures attempts == T.Closed(old(attempts), executionId, attemptNo, status)
    {
      for i := 0 to |attempts|
        invariant |attempts| == |old(attempts)|
        invariant forall k :: i <= k < |attempts| ==> attempts[k] == old(attempts)[k]
        invariant forall k :: 0 <= k < i ==> attempts[k] == T.Closed(old(attempts), executionId, attemptNo, status)[k]
      {
        if attempts[i].executionId == executionId && attempts[i].data.attemptNo == attemptNo {
          attempts := attempts[i := attempts[i].(data := T.Attempt(attemptNo, status))];
        }
      }
    }

    method PrepareExecution(executionId: string, payer: string, plan: Plan, input: InferInput, billingDate: string)
      returns (reply: Result<T.Prepared, GatewayProblem>)
      modifies this`executions, this`events
      ensures (View(), reply) == T.Prepare(old(View()), executionId, payer, plan, input, billingDate)
      ensures reply.Ok? <==>
        Admissible(plan, input, T.FeePaid(ledger, payer, billingDate), HoldOf(ledger, payer, input.reservationId))
      ensures reply.Err? ==> View() == old(View())
      ensures reply.Ok? && LedgerOk(ledger) && Fresh(old(View()), executionId) && IsFreeHold(old(executions), plan, input)
        ==> Waiting(View(), reply.value, 0)
    {
      hide LedgerOk, Fresh, Waiting, IsFreeHold;
      ghost var was := View();
      AdmissibleIsAccepted(plan, input, T.FeePaid(ledger, payer, billingDate), HoldOf(ledger, payer, input.reservationId));
      if InputTokenBound(input.messages) > plan.maxInputTokens {
        return Err(ModelInputLimitExceeded);
      }
      var maxOutputTokens := RequestedOutput(plan, input);
      if maxOutputTokens <= 0 {
        return Err(InvalidGatewayInput);
      }
      if maxOutputTokens > plan.maxOutputTokens {
        return Err(ModelLimitExceeded);
      }
      if input.maxCharge > MAX_BIGINT {
        return Err(InvalidAmount);
      }
      if plan.billing == PlatformPrepaid && input.maxCharge < ConservativeCharge(plan, input) {
        return Err(AuthorizationTooSmall);
      }
      if L.FeeKey(payer, billingDate) !in ledger.fees {
        return Err(DailyFeeRequired);
      }
      if plan.billing == PlatformPrepaid {
        if input.reservationId.None? {
          return Err(ReservationRequired);
        }
        var hold := HoldOf(ledger, payer, input.reservationId);
        if hold.None? || !hold.value.ownedByPayer || !hold.value.active {
          return Err(InvalidReservation);
        }
        if hold.value.amount < input.maxCharge {
          return Err(ReservationTooSmall);
        }
      } else if input.reservationId.Some? {
        return Err(ByokReservationNotAllowed);
      }
      executions := executions[executionId := T.Execution(payer, input.reservationId, input.maxCharge, T.Proposed, None)];
      AppendEvent(executionId, T.ExecutionProposed);
      if LedgerOk(ledger) && Fresh(was, executionId) && IsFreeHold(was.executions, plan, input) {
        PreparedIsWaiting(was, executionId, payer, plan, input, billingDate);
      }
      return Ok(T.PreparedFor(executionId, payer, plan, input, billingDate));
    }

    /** `assertDispatchEligibility` */
    method CheckEligibility(p: T.Prepared, c: T.Conditions) returns (problem: Option<GatewayProblem>)
      requires p.executionId in executions && executions[p.executionId].status in {T.Proposed, T.Dispatched}
      ensures problem == T.DispatchProblem(View(), p, c)
    {
      if !c.authenticated {
        return Some(Unauthenticated);
      }
      if p.billingDate != c.today {
        return Some(StaleActivityTicket);
      }
      if L.FeeKey(p.payer, p.billingDate) !in ledger.fees {
        return Some(DailyFeeRequired);
      }
      if p.payer !in ledger.wallets || L.Available(ledger, p.payer) <= 0 {
        return Some(NoAvailableEnergy);
      }
      if !c.routeActive {
        return Some(GatewayNotAvailable);
      }
      if p.plan.billing == PlatformPrepaid {
        var hold := HoldOf(ledger, p.payer, p.reservation);
        if hold.None? || !hold.value.ownedByPayer || !hold.value.active {
          return Some(InvalidReservation);
        }
        if hold.value.amount < p.maxCharge {
          return Some(ReservationTooSmall);
        }
      }
      return None;
    }

    method MarkAttemptDispatched(p: T.Prepared, attemptNo: nat, c: T.Conditions) returns (problem: Option<GatewayProblem>)
      modifies this`executions, this`attempts, this`events
      ensures (View(), problem) == T.Dispatch(old(View()), p, attemptNo, c)
      ensures problem.None? <==> MayDispatch(old(View()), p, c)
      ensures problem.Some? ==> View() == old(View())
    {
      DispatchesAreAllowed(View(), p, attemptNo, c);
      if p.executionId !in executions || executions[p.executionId].status !in {T.Proposed, T.Dispatched} {
        return Some(ExecutionNotDispatchable);
      }
      problem := CheckEligibility(p, c);
      if problem.Some? {
        return;
      }
      attempts := attempts + [T.Row(p.executionId, T.Attempt(attemptNo, T.Started))];
      SetStatus(p.executionId, T.Dispatched, None);
      AppendEvent(p.executionId, T.ExecutionDispatched);
    }

    method MarkRetryableFailure(p: T.Prepared, attemptNo: nat)
      modifies this`attempts
      ensures View() == T.Retry(old(View()), p, attemptNo)
    {
      CloseAttempt(p.executionId, attemptNo, T.AttemptFailed);
    }

    /** `settleReservation` and the receipt; a refusal leaves nothing, like the transaction it aborts. */
    method Charge(p: T.Prepared, attemptNo: nat, usage: Usage) returns (thrown: Option<GatewayProblem>)
      modifies this`ledger, this`receipts
      ensures thrown == if T.SettleHold(old(ledger), p, ChargeFor(p.plan, usage)).reply.Err? then Some(LedgerRefused) else None
      ensures ledger == if thrown.Some? then old(ledger) else T.SettleHold(old(ledger), p, ChargeFor(p.plan, usage)).after
      ensures receipts == if thrown.Some? then old(receipts)
                          else old(receipts) + [T.Row(p.executionId, T.ReceiptFor(p, attemptNo, usage))]
    {
      var charge := ChargeFor(p.plan, usage);
      if p.plan.billing == PlatformPrepaid {
        if p.reservation.None? {
          return Some(LedgerRefused);
        }
        var settled := L.Settle(ledger, p.payer, p.reservation.value, charge, T.SettleKey(p.executionId), p.payer);
        if settled.reply.Err? {
          return Some(LedgerRefused);
        }
        ledger := settled.after;
      }
      receipts := receipts + [T.Row(p.executionId, T.Receipt(attemptNo, usage, charge, p.plan.billing == Byok))];
      return None;
    }

    method FinalizeSuccess(p: T.Prepared, attemptNo: nat, usage: Usage) returns (thrown: Option<GatewayProblem>)
      modifies this`ledger, this`executions, this`attempts, this`receipts, this`events
      ensures (View(), thrown) == T.Succeed(old(View()), p, attemptNo, usage)
    {
      var charge := ChargeFor(p.plan, usage);
      if charge > p.maxCharge {
        return Some(UsageExceedsAuthorization);
      }
      thrown := Charge(p, attemptNo, usage);
      if thrown.None? {
        CloseAttempt(p.executionId, attemptNo, T.AttemptSucceeded);
        SetStatus(p.executionId, T.Succeeded, Some(charge));
        AppendEvent(p.executionId, T.ExecutionSucceeded);
      }
    }

    method FinalizeFailure(p: T.Prepared, attemptNo: nat, usage: Option<Usage>) returns (thrown: Option<GatewayProblem>)
      modifies this`ledger, this`executions, this`attempts, this`receipts, this`events
      ensures (View(), thrown) == T.Fail(old(View()), p, attemptNo, usage)
    {
      var charge: nat := 0;
      if usage.Some? {
        charge := ChargeFor(p.plan, usage.value);
        if charge > p.maxCharge {
          return Some(UsageExceedsAuthorization);
        }
        thrown := Charge(p, attemptNo, usage.value);
        if thrown.Some? {
          return;
        }
      } else if p.plan.billing == PlatformPrepaid && p.reservation.Some? {
        var released := L.Release(ledger, p.payer, p.reservation.value, p.payer);
        if released.reply.Err? {
          return Some(LedgerRefused);
        }
        ledger := released.after;
      }
      CloseAttempt(p.executionId, attemptNo, T.AttemptFailed);
      SetStatus(p.executionId, T.Failed, Some(charge));
      AppendEvent(p.executionId, T.ExecutionFailed);
      return None;
    }

    method FinalizeUnknown(p: T.Prepared, attemptNo: nat)
      modifies this`executions, this`attempts, this`events, this`reconciliation
      ensures View() == T.LeaveUnknown(old(View()), p, attemptNo)
    {
      CloseAttempt(p.executionId, attemptNo, T.AttemptUnknown);
      SetStatus(p.executionId, T.OutcomeUnknown, None);
      reconciliation := reconciliation + {p.executionId};
      AppendEvent(p.executionId, T.ExecutionOutcomeUnknown);
    }

    method FinalizeEligibilityFailure(p: T.Prepared) returns (thrown: Option<GatewayProblem>)
      modifies this`ledger, this`executions, this`events
      ensures (View(), thrown) == T.Block(old(View()), p)
    {
      if p.plan.billing == PlatformPrepaid && p.reservation.Some? {
        var hold := HoldOf(ledger, p.payer, p.reservation);
        if hold.Some? && hold.value.ownedByPayer && hold.value.active {
          var released := L.Release(ledger, p.payer, p.reservation.value, p.payer);
          if released.reply.Err? {
            return Some(LedgerRefused);
          }
          ledger := released.after;
        }
      }
      SetStatus(p.executionId, T.Failed, None);
      AppendEvent(p.executionId, T.ExecutionFailed);
      return None;
    }

    method CancelExecution(executionId: string, actor: string, actorIsSystem: bool)
      returns (reply: Result<T.CancelReply, GatewayProblem>)
      modifies this`ledger, this`executions, this`events
      ensures (View(), reply) == T.Cancel(old(View()), executionId, actor, actorIsSystem)
    {
      if executionId !in executions {
        return Err(ExecutionNotFound);
      }
      var row := executions[executionId];
      if !actorIsSystem && actor != row.payer {
        return Err(CancelForbidden);
      }
      if row.status in {T.Succeeded, T.Failed, T.OutcomeUnknown, T.Cancelled} {
        return Ok(T.CancelReply(row.status == T.Cancelled, true));
      }
      if row.status == T.Dispatched {
        return Ok(T.CancelReply(false, false));
      }
      if row.reservation.Some? {
        if actor != row.payer {
          return Err(CancelForbidden);
        }
        var released := L.Release(ledger, row.payer, row.reservation.value, actor);
        if released.reply.Err? {
          return Err(LedgerRefused);
        }
        ledger := released.after;
      }
      SetStatus(executionId, T.Cancelled, None);
      AppendEvent(executionId, T.ExecutionCancelled);
      return Ok(T.CancelReply(true, false));
    }

    method Commit(transaction: T.Transaction)
      modifies this
      ensures View() == T.Commit(old(View()), transaction)
    {
      match transaction
      case OnLedger(actor, command) => ledger := L.Execute(ledger, actor, command).after;
      case Prepares(id, payer, plan, input, date) =>
        if id !in executions {
          var _ := PrepareExecution(id, payer, plan, input, date);
        }
      case Dispatches(p, attemptNo, conditions) => var _ := MarkAttemptDispatched(p, attemptNo, conditions);
      case Retries(p, attemptNo) =>
        if T.Row(p.executionId, T.Attempt(attemptNo, T.Started)) in attempts {
          MarkRetryableFailure(p, attemptNo);
        }
      case Succeeds(p, attemptNo, usage) =>
        if T.Row(p.executionId, T.Attempt(attemptNo, T.Started)) in attempts {
          var _ := FinalizeSuccess(p, attemptNo, usage);
        }
      case Fails(p, attemptNo, usage) =>
        if T.Row(p.executionId, T.Attempt(attemptNo, T.Started)) in attempts {
          var _ := FinalizeFailure(p, attemptNo, usage);
        }
      case EndsUnknown(p, attemptNo) =>
        if T.Row(p.executionId, T.Attempt(attemptNo, T.Started)) in attempts {
          FinalizeUnknown(p, attemptNo);
        }
      case Blocks(p) =>
        if p.executionId in executions {
          var _ := FinalizeEligibilityFailure(p);
        }
      case Cancels(id, actor, actorIsSystem) => var _ := CancelExecution(id, actor, actorIsSystem);
    }

    method LetOthersCommit(transactions: seq<T.Transaction>)
      modifies this
      ensures View() == T.CommitAll(old(View()), transactions)
    {
      for i := 0 to |transactions|
        invariant View() == T.CommitAll(old(View()), transactions[..i])
      {
        assert transactions[..i + 1][..i] == transactions[..i];
        Commit(transactions[i]);
      }
      assert transactions[..|transactions|] == transactions;
    }

    // ---- infer ----

    /** What is made of the provider's reply to the attempt that is out. */
    method Conclude(p: T.Prepared, attemptNo: nat, reply: T.ProviderReply)
      returns (round: Round, thrown: Option<GatewayProblem>)
      requires Sent(View(), p, attemptNo) && attemptNo <= AllowedAttempts(p.plan)
      modifies this
      ensures thrown.None? && round != Blocked
      ensures round.Again? <==> SafeToRetry(p.plan, reply) && attemptNo < AllowedAttempts(p.plan)
      ensures round.Again? ==> Waiting(View(), p, attemptNo)
      ensures round.Replied? ==> EndedBy(View(), p, attemptNo, reply)
      ensures LedgerOk(old(ledger)) ==> LedgerOk(ledger)
    {
      hide Sent, EndedBy, Waiting, LedgerOk, ChargeFor;
      var allowed := AllowedAttempts(p.plan);
      round, thrown := Replied, None;
      ghost var was := View();
      if LedgerOk(ledger) {
        EndKeepsLedgerOk(was, p, attemptNo, UsageOf(reply));
        EndKeepsLedgerOk(was, p, attemptNo, None);
      }
      match reply {
        case ConnectFailed =>
          if attemptNo < allowed {
            MarkRetryableFailure(p, attemptNo);
            RetryWaits(was, p, attemptNo);
            return Again, None;
          }
          thrown := FinalizeFailure(p, attemptNo, None);
          FailureEnds(was, p, attemptNo, reply);
        case NoTrustworthyOutcome =>
          FinalizeUnknown(p, attemptNo);
          DoubtEnds(was, p, attemptNo, reply);
        case ErrorResponse(httpStatus, usage) =>
          if usage.Some? && p.plan.billing == PlatformPrepaid && ChargeFor(p.plan, usage.value) > p.maxCharge {
            FinalizeUnknown(p, attemptNo);
            DoubtEnds(was, p, attemptNo, reply);
          } else if usage.None? && Retryable(httpStatus) && p.plan.supportsIdempotency && attemptNo < allowed {
            MarkRetryableFailure(p, attemptNo);
            RetryWaits(was, p, attemptNo);
            return Again, None;
          } else {
            if usage.Some? {
              ByokIsFree(p, usage.value);
            }
            thrown := FinalizeFailure(p, attemptNo, usage);
            FailureEnds(was, p, attemptNo, reply);
          }
        case OkResponse(usage, hasTextOutput) =>
          if usage.None? || ChargeFor(p.plan, usage.value) > p.maxCharge {
            FinalizeUnknown(p, attemptNo);
            DoubtEnds(was, p, attemptNo, reply);
          } else if usage.value.inputTokens > p.plan.maxInputTokens || usage.value.outputTokens > p.maxOutputTokens
                    || !hasTextOutput {
            thrown := FinalizeFailure(p, attemptNo, usage);
            FailureEnds(was, p, attemptNo, reply);
          } else {
            thrown := FinalizeSuccess(p, attemptNo, usage.value);
            SuccessEnds(was, p, attemptNo, reply);
          }
      }
    }

    /** One round of the attempt loop, with n attempts behind it. */
    method AttemptOnce(p: T.Prepared, n: nat, around: Surroundings)
      returns (round: Round, thrown: Option<GatewayProblem>)
      requires Open(View(), p, n) && n < AllowedAttempts(p.plan) && LeftAlone(p, around)
      modifies this
      ensures thrown.None?
      ensures round.Again? ==>
        SafeToRetry(p.plan, around.reply) && n + 1 < AllowedAttempts(p.plan) && Waiting(View(), p, n + 1)
      ensures round.Replied? ==> EndedBy(View(), p, n + 1, around.reply)
      ensures round.Blocked? ==> EndedBlocked(View(), p, n) || (n == 0 && EndedCancelled(View(), p))
      ensures round.Blocked? <==> !MaySend(T.CommitAll(old(View()), around.before), p, around)
      ensures LedgerOk(old(ledger)) ==> LedgerOk(ledger)
    {
      hide MayDispatch, Open, Sent, EndedBy, EndedBlocked, EndedCancelled, Waiting, LedgerOk, SafeToRetry, T.DispatchProblem, T.Block,
        T.Dispatch, T.CommitAll, AllOther, CancelledFirst;
      LetOthersCommit(around.before);
      OthersKeepRun(old(View()), p, n, around.before);
      LedgerStaysOk(old(View()), around.before);
      if p.plan.needsCredential && !around.hasSecret {
        round, thrown := BlockBefore(p, n);
        return;
      }
      ghost var was := View();
      var blocked := MarkAttemptDispatched(p, n + 1, around.conditions);
      DispatchSends(was, p, n, around.conditions);
      DispatchKeepsLedger(was, p, n + 1, around.conditions);
      ghost var dispatched := View();
      LetOthersCommit(around.during);
      OthersKeepRun(dispatched, p, if blocked.Some? then n else n + 1, around.during);
      LedgerStaysOk(dispatched, around.during);
      if blocked.Some? {
        round, thrown := BlockBefore(p, n);
        return;
      }
      round, thrown := Conclude(p, n + 1, around.reply);
    }

    /** `finalizeEligibilityFailure` and `finalizePreDispatchFailure` */
    method BlockBefore(p: T.Prepared, n: nat) returns (round: Round, thrown: Option<GatewayProblem>)
      requires Open(View(), p, n)
      modifies this
      ensures round.Blocked? && thrown.None?
      ensures EndedBlocked(View(), p, n) || (n == 0 && EndedCancelled(View(), p))
      ensures LedgerOk(old(ledger)) ==> LedgerOk(ledger)
    {
      hide Rows, Funded, GivenBack, EndedBlocked, EndedCancelled, LedgerOk, T.Block;
      ghost var was := View();
      BlockEnds(was, p, n);
      if LedgerOk(ledger) {
        EndKeepsLedgerOk(was, p, 0, None);
      }
      thrown := FinalizeEligibilityFailure(p);
      round := Blocked;
    }

    /**
     The attempt loop. Whatever others commit before and during its attempts, it never throws and never
     runs out, and ends by the last reply, blocked, or cancelled before anything was sent. `found` are the
     tables each round found when it looked whether it may send.
     */
    method RunAttempts(p: T.Prepared, around: nat -> Surroundings)
      returns (sent: nat, round: Round, thrown: Option<GatewayProblem>, ghost found: seq<T.Tables>)
      requires Waiting(View(), p, 0) && p.plan.maxAttempts >= 1
      requires forall n :: LeftAlone(p, around(n))
      modifies this
      ensures thrown.None? && !round.Again?
      ensures sent <= AllowedAttempts(p.plan) && (sent > 1 ==> p.plan.supportsIdempotency)
      ensures |found| == (if round.Blocked? then sent + 1 else sent)
      ensures forall n :: 1 <= n <= sent ==> MaySend(found[n - 1], p, around(n))
      ensures round.Blocked? ==> !MaySend(found[sent], p, around(sent + 1))
      ensures forall n :: 1 <= n < sent ==> SafeToRetry(p.plan, around(n).reply)
      ensures round.Replied? ==> EndedBy(View(), p, sent, around(sent).reply)
      ensures round.Blocked? ==>
        || (EndedBlocked(View(), p, sent) && (sent > 0 ==> SafeToRetry(p.plan, around(sent).reply)))
        || (sent == 0 && EndedCancelled(View(), p))
      ensures LedgerOk(old(ledger)) ==> LedgerOk(ledger)
    {
      hide Waiting, CancelledFirst, EndedBy, EndedBlocked, EndedCancelled, LedgerOk, SafeToRetry, LeftAlone, MaySend, T.CommitAll;
      var allowed := AllowedAttempts(p.plan);
      sent, round, thrown, found := 0, Again, None, [];
      while sent < allowed && round.Again?
        invariant thrown.None?
        invariant sent < allowed || !round.Again?
        invariant sent <= allowed
        invariant round.Again? ==> Open(View(), p, sent)
        invariant |found| == (if round.Blocked? then sent + 1 else sent)
        invariant forall n :: 1 <= n <= sent ==> MaySend(found[n - 1], p, around(n))
        invariant round.Blocked? ==> !MaySend(found[sent], p, around(sent + 1))
        invariant forall n :: 1 <= n < sent ==> SafeToRetry(p.plan, around(n).reply)
        invariant sent > 0 && !round.Replied? ==> SafeToRetry(p.plan, around(sent).reply)
        invariant round.Replied? ==> EndedBy(View(), p, sent, around(sent).reply)
        invariant round.Blocked? ==> EndedBlocked(View(), p, sent) || (sent == 0 && EndedCancelled(View(), p))
        invariant LedgerOk(old(ledger)) ==> LedgerOk(ledger)
        decreases round.Again?, allowed - sent
      {
        found := found + [T.CommitAll(View(), around(sent + 1).before)];
        round, thrown := AttemptOnce(p, sent, around(sent + 1));
        if !round.Blocked? {
          sent := sent + 1;
        }
      }
    }

    /** `infer` for a new key: refused before anything is written, or run to one of its ends. */
    method Infer(executionId: string, payer: string, plan: Plan, input: InferInput, billingDate: string,
                 around: nat -> Surroundings)
      returns (reply: Result<T.ExecutionStatus, GatewayProblem>, sent: nat, ghost found: seq<T.Tables>)
      requires plan.maxAttempts >= 1 && LedgerOk(ledger) && Fresh(View(), executionId)
      requires IsFreeHold(executions, plan, input)
      requires RequestedOutput(plan, input) > 0 ==>
        forall n :: LeftAlone(T.PreparedFor(executionId, payer, plan, input, billingDate), around(n))
      modifies this
      ensures reply.Ok? <==>
        Admissible(plan, input, T.FeePaid(old(ledger), payer, billingDate), HoldOf(old(ledger), payer, input.reservationId))
      ensures reply.Err? ==> View() == old(View())
      ensures reply.Ok? ==>
        var p := T.PreparedFor(executionId, payer, plan, input, billingDate);
        && sent <= AllowedAttempts(plan) && (sent > 1 ==> plan.supportsIdempotency)
        && |found| >= sent && (forall n :: 1 <= n <= sent ==> MaySend(found[n - 1], p, around(n)))
        && (sent == 0 ==> |found| == 1 && !MaySend(found[0], p, around(1)))
        && (forall n :: 1 <= n < sent ==> SafeToRetry(plan, around(n).reply))
        && executionId in executions && executions[executionId].status == reply.value
        && ((sent > 0 && EndedBy(View(), p, sent, around(sent).reply))
            || (EndedBlocked(View(), p, sent) && (sent > 0 ==> SafeToRetry(plan, around(sent).reply)))
            || (sent == 0 && EndedCancelled(View(), p)))
      ensures LedgerOk(ledger)
    {
      hide LedgerOk, T.Prepare, Fresh, Waiting, LeftAlone, Admissible, IsFreeHold;
      ghost var was := View();
      sent, found := 0, [];
      PrepareReplies(was, executionId, payer, plan, input, billingDate);
      var prepared := PrepareExecution(executionId, payer, plan, input, billingDate);
      if prepared.Err? {
        return Err(prepared.error), 0, [];
      }
      var round, thrown;
      sent, round, thrown, found := RunAttempts(prepared.value, around);
      reply := Ok(executions[executionId].status);
    }
  }
}
