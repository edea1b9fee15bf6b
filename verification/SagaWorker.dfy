/**
 What the outbox worker sends to the EconomyPort and what it makes of each reply
 (src/services/cross_product_saga_worker.js).
 */
module SagaWorker {
  import opened Wrappers
  import opened OperationKeys
  import opened Text
  import opened Sagas
  import opened SagaStore

  /** A handed-out outbox row: its key and the row as it was when it was claimed. */
  datatype Claimed = Claimed(key: string, row: OutboxRow)

  /** `request_id` is transport metadata; everything else comes from the stored command. */
  datatype PortRequest = PortRequest(
    operation: string, requestId: string, idempotencyKey: string, principalRef: string, payload: EscrowPayload)

  function RequestFor(command: Command, requestId: string): PortRequest {
    PortRequest(command.operation, requestId, command.idempotencyKey, command.principalRef, command.payload)
  }

  /** The worker refuses to send a row whose snapshot does not match its columns. */
  predicate IdentityMatches(claim: Claimed) {
    var command := claim.row.command;
    && command.operation == "escrow"
    && command.operationKey == claim.key && command.idempotencyKey == claim.key
    && command.digest == claim.row.digest
  }

  datatype PortStatus = Succeeded | Duplicate | OutcomeUnknown | Timeout | Unavailable | Refused

  datatype ResultRefs = ResultRefs(
    settlementRef: Option<string>, receiptRef: Option<string>, escrowRef: Option<string>, operationRef: Option<string>)

  datatype Reply =
    | Thrown(confirmedNoEffect: bool, thrownCode: string)
    | Response(status: PortStatus, operationRef: Option<string>, result: Option<ResultRefs>, errorCode: string)

  function FirstOf(a: Option<string>, b: Option<string>): Option<string> {
    if a.Some? then a else b
  }

  function SuccessReference(reply: Reply, command: Command): Option<string>
    requires reply.Response?
  {
    var refs := if reply.result.Some? then reply.result.value else ResultRefs(None, None, None, None);
    if command.payload.action == Some(Distribute) then
      FirstOf(refs.settlementRef, FirstOf(refs.receiptRef, FirstOf(reply.operationRef, refs.operationRef)))
    else
      FirstOf(refs.escrowRef, FirstOf(reply.operationRef, FirstOf(refs.operationRef,
        FirstOf(refs.settlementRef, refs.receiptRef))))
  }

  const DEFAULT_MAX_ATTEMPTS := 5

  /**
   What the worker does with a reply: store a result, or report a failure of its claim. Only some
   reports pass the worker's own attempt limit on.
   */
  datatype Reaction =
    | Record(raw: RawResult)
    | Report(errorCode: string, retryable: bool, outcomeUnknown: bool, ownLimit: bool)

  function ReactionTo(reply: Reply, command: Command): Reaction {
    match reply
    case Thrown(confirmedNoEffect, code) =>
      Report(if Blank(code) then "TRANSPORT_OUTCOME_UNKNOWN" else code, confirmedNoEffect, !confirmedNoEffect, true)
    case Response(status, _, _, code) =>
      match status
      case Succeeded | Duplicate =>
        var reference := SuccessReference(reply, command);
        if reference.None? || reference.value == "" then Report("KB_SUCCESS_MISSING_OPERATION_REFERENCE", false, true, false)
        else Record(RawResult(Some(command.operationKey), None, Some(command.digest), RawSucceeded, reference, None))
      case OutcomeUnknown => Report(code, false, true, false)
      case Timeout | Unavailable => Report(code, true, false, true)
      case Refused =>
        Record(RawResult(Some(command.operationKey), None, Some(command.digest), RawFailed, None, Some(code)))
  }

  /** Only a stored success or refusal ends the uncertainty: nothing else is ever recorded as a result. */
  lemma OnlyDefiniteRepliesAreRecorded(reply: Reply, command: Command)
    requires ReactionTo(reply, command).Record?
    ensures reply.Response?
    ensures var raw := ReactionTo(reply, command).raw;
      && (raw.status == RawSucceeded <==> reply.status in {Succeeded, Duplicate})
      && (raw.status == RawFailed <==> reply.status == Refused)
      && raw.digest == Some(command.digest) && raw.operationKey == Some(command.operationKey)
      && (raw.status == RawSucceeded ==> raw.resultRef == SuccessReference(reply, command) && raw.resultRef != Some(""))
  {
  }

  /** A report built from a claim. */
  function FailureOf(claim: Claimed, code: string, retryable: bool, unknown: bool, retryAfterMs: int, limit: int): Failure {
    Failure(claim.key, if claim.row.leaseOwner.Some? then claim.row.leaseOwner.value else "", code, retryable, unknown,
            retryAfterMs, limit)
  }

  function LimitOf(ownLimit: bool, maxAttempts: int): int {
    if ownLimit then maxAttempts else DEFAULT_MAX_ATTEMPTS
  }

  /** What the worker reports when a claimed row does not match its own snapshot. */
  function Mismatch(claim: Claimed): Failure {
    FailureOf(claim, "SAGA_OUTBOX_IDENTITY_MISMATCH", false, false, 1000, DEFAULT_MAX_ATTEMPTS)
  }

  /** Every report that may lead to a retry passes the worker's own limit on. */
  lemma RetryableReportsAreLimited(reply: Reply, command: Command)
    requires ReactionTo(reply, command).Report? && ReactionTo(reply, command).retryable
    ensures ReactionTo(reply, command).ownLimit && !ReactionTo(reply, command).outcomeUnknown
  {
  }
}
