/**
 What a model inference may cost: the charge for token usage (src/services/gateway.js), the quote that
 caps it (src/services/p1_4.js), and the checks `prepareExecution` makes before anything is sent.
 */
module GatewayCharges {
  import opened Wrappers

  const ONE_MILLION := 1_000_000
  const MAX_BIGINT := 9_223_372_036_854_775_807

  datatype GatewayProblem =
    | ModelInputLimitExceeded | InvalidGatewayInput | ModelLimitExceeded | InvalidAmount
    | AuthorizationTooSmall | DailyFeeRequired | ReservationRequired | InvalidReservation | ReservationTooSmall
    | ByokReservationNotAllowed | ExecutionNotDispatchable | Unauthenticated | StaleActivityTicket | NoAvailableEnergy
    | GatewayNotAvailable | UsageExceedsAuthorization
    | InvalidQuoteInput | DescriptorNotAvailable | InvalidQuoteExpiry | ZeroCostPlatformQuote
    | InvalidQuote | QuoteExpired | QuoteScopeExceeded | QuoteNotActive | QuoteReservationMismatch
    | ExecutionNotFound | CancelForbidden | LedgerRefused

  datatype Billing = PlatformPrepaid | Byok

  /** A descriptor with its connector. */
  datatype Plan = Plan(
    maxInputTokens: nat, maxOutputTokens: nat, maxAttempts: nat, supportsIdempotency: bool,
    inputRate: nat, outputRate: nat, billing: Billing, needsCredential: bool)

  datatype Usage = Usage(inputTokens: nat, outputTokens: nat)

  // ---- Charges ----

  function CeilDiv(numerator: nat, denominator: nat): nat
    requires denominator > 0
  {
    if numerator == 0 then 0 else (numerator + denominator - 1) / denominator
  }

  /** `calculateUsageCharge` */
  function UsageCharge(plan: Plan, usage: Usage): nat {
    CeilDiv(usage.inputTokens * plan.inputRate, ONE_MILLION) + CeilDiv(usage.outputTokens * plan.outputRate, ONE_MILLION)
  }

  /** `usageChargeForPrepared`: an external bill is no platform charge. */
  function ChargeFor(plan: Plan, usage: Usage): nat {
    if plan.billing == Byok then 0 else UsageCharge(plan, usage)
  }

  lemma CeilDivRounds(n: nat, d: nat)
    requires d > 0
    ensures n <= d * CeilDiv(n, d) < n + d
  {
    if n > 0 {
      var q, r := (n + d - 1) / d, (n + d - 1) % d;
      assert n + d - 1 == d * q + r;
    }
  }

  lemma CeilDivMonotone(m: nat, n: nat, d: nat)
    requires d > 0 && m <= n
    ensures CeilDiv(m, d) <= CeilDiv(n, d)
  {
    CeilDivRounds(m, d);
    CeilDivRounds(n, d);
    if CeilDiv(m, d) > CeilDiv(n, d) {
      ScaledOrder(CeilDiv(n, d) + 1, CeilDiv(m, d), d);
    }
  }

  lemma ScaledOrder(a: nat, b: nat, d: nat)
    requires a <= b
    ensures d * a <= d * b
  {
  }

  /** The charge covers the exact cost, and is less than two microE above it. */
  lemma ChargeIsTight(plan: Plan, usage: Usage)
    ensures var exact := usage.inputTokens * plan.inputRate + usage.outputTokens * plan.outputRate;
      exact <= ONE_MILLION * UsageCharge(plan, usage) < exact + 2 * ONE_MILLION
  {
    CeilDivRounds(usage.inputTokens * plan.inputRate, ONE_MILLION);
    CeilDivRounds(usage.outputTokens * plan.outputRate, ONE_MILLION);
  }

  lemma ChargeIsMonotone(plan: Plan, less: Usage, more: Usage)
    requires less.inputTokens <= more.inputTokens && less.outputTokens <= more.outputTokens
    ensures UsageCharge(plan, less) <= UsageCharge(plan, more)
  {
    ScaledOrder(less.inputTokens, more.inputTokens, plan.inputRate);
    ScaledOrder(less.outputTokens, more.outputTokens, plan.outputRate);
    CeilDivMonotone(less.inputTokens * plan.inputRate, more.inputTokens * plan.inputRate, ONE_MILLION);
    CeilDivMonotone(less.outputTokens * plan.outputRate, more.outputTokens * plan.outputRate, ONE_MILLION);
  }

  // ---- prepareExecution ----

  /** The messages as `conservativeInputTokenUpperBound` sees them: their JSON length in bytes and their number. */
  datatype Messages = Messages(jsonBytes: nat, count: nat)

  function InputTokenBound(messages: Messages): nat {
    messages.jsonBytes + 32 + messages.count * 16
  }

  /** The payer's reservation as it is found: its owner is checked by the caller of this record. */
  datatype Hold = Hold(ownedByPayer: bool, active: bool, amount: int)

  datatype InferInput = InferInput(
    messages: Messages, maxOutputTokens: Option<int>, maxCharge: nat, reservationId: Option<nat>)

  function RequestedOutput(plan: Plan, input: InferInput): int {
    if input.maxOutputTokens.Some? then input.maxOutputTokens.value else plan.maxOutputTokens
  }

  function ConservativeCharge(plan: Plan, input: InferInput): nat
    requires RequestedOutput(plan, input) > 0
  {
    UsageCharge(plan, Usage(InputTokenBound(input.messages), RequestedOutput(plan, input)))
  }

  /** Everything `prepareExecution` checks about a new execution, in its order. */
  function PrepareProblem(plan: Plan, input: InferInput, feeCharged: bool, hold: Option<Hold>): Option<GatewayProblem> {
    if InputTokenBound(input.messages) > plan.maxInputTokens then Some(ModelInputLimitExceeded)
    else if RequestedOutput(plan, input) <= 0 then Some(InvalidGatewayInput)
    else if RequestedOutput(plan, input) > plan.maxOutputTokens then Some(ModelLimitExceeded)
    else if input.maxCharge > MAX_BIGINT then Some(InvalidAmount)
    else if plan.billing == PlatformPrepaid && input.maxCharge < ConservativeCharge(plan, input) then Some(AuthorizationTooSmall)
    else if !feeCharged then Some(DailyFeeRequired)
    else if plan.billing == PlatformPrepaid then
      if input.reservationId.None? then Some(ReservationRequired)
      else if hold.None? || !hold.value.ownedByPayer || !hold.value.active then Some(InvalidReservation)
      else if hold.value.amount < input.maxCharge then Some(ReservationTooSmall)
      else None
    else if input.reservationId.Some? then Some(ByokReservationNotAllowed)
    else None
  }

  /**
   What a caller may rely on once `prepareExecution` accepted: the request is within the descriptor's
   limits and the day's fee is paid. A platform-paid one is authorized to cost as much as it possibly
   can, and its own active hold covers the authorization; an externally billed one holds nothing.
   */
  predicate Admissible(plan: Plan, input: InferInput, feeCharged: bool, hold: Option<Hold>) {
    && InputTokenBound(input.messages) <= plan.maxInputTokens
    && 0 < RequestedOutput(plan, input) <= plan.maxOutputTokens
    && input.maxCharge <= MAX_BIGINT && feeCharged
    && (plan.billing == PlatformPrepaid ==>
          && ConservativeCharge(plan, input) <= input.maxCharge
          && input.reservationId.Some? && hold.Some?
          && hold.value.ownedByPayer && hold.value.active && input.maxCharge <= hold.value.amount)
    && (plan.billing == Byok ==> input.reservationId.None?)
  }

  lemma AdmissibleIsAccepted(plan: Plan, input: InferInput, feeCharged: bool, hold: Option<Hold>)
    ensures PrepareProblem(plan, input, feeCharged, hold).None? <==> Admissible(plan, input, feeCharged, hold)
  {
  }

  /**
   Whatever a provider honestly measures for an accepted request costs no more than was authorized:
   input within the conservative bound, output within the requested limit.
   */
  lemma AcceptedRequestsAreCovered(plan: Plan, input: InferInput, feeCharged: bool, hold: Option<Hold>, measured: Usage)
    requires PrepareProblem(plan, input, feeCharged, hold).None?
    requires measured.inputTokens <= InputTokenBound(input.messages) && measured.outputTokens <= RequestedOutput(plan, input)
    ensures ChargeFor(plan, measured) <= input.maxCharge
    ensures plan.billing == PlatformPrepaid ==> hold.Some? && ChargeFor(plan, measured) <= hold.value.amount
  {
    AdmissibleIsAccepted(plan, input, feeCharged, hold);
    ChargeIsMonotone(plan, measured, Usage(InputTokenBound(input.messages), RequestedOutput(plan, input)));
  }

  // ---- Quotes ----

  datatype QuoteStatus = QuoteActive | QuoteReserved

  datatype Quote = Quote(maxInputTokens: nat, maxOutputTokens: nat, maxCost: nat, status: QuoteStatus, expiresAt: nat)

  const DAY_MS := 86_400_000

  /** `quoteResource` for an actor that pays for itself; `expiresAt` is absent when the default applies. */
  function QuoteResource(plan: Plan, available: bool, maxInput: int, maxOutput: int, expiresAt: Option<nat>, now: nat)
    : Result<Quote, GatewayProblem>
  {
    if maxInput <= 0 || maxOutput <= 0 then Err(InvalidQuoteInput)
    else if !available then Err(DescriptorNotAvailable)
    else if maxInput > plan.maxInputTokens || maxOutput > plan.maxOutputTokens then Err(ModelLimitExceeded)
    else
      var expiry := if expiresAt.Some? then expiresAt.value else now + 600_000;
      if expiry <= now || expiry > now + DAY_MS then Err(InvalidQuoteExpiry)
      else
        var maxCost := UsageCharge(plan, Usage(maxInput, maxOutput));
        if maxCost <= 0 then Err(ZeroCostPlatformQuote)
        else Ok(Quote(maxInput, maxOutput, maxCost, QuoteActive, expiry))
  }

  /** The amount `reserveQuoted` holds, when it accepts. */
  function ReserveQuoted(quote: Quote, amount: Option<nat>, now: nat): Result<nat, GatewayProblem> {
    if quote.status != QuoteActive then Err(QuoteNotActive)
    else if quote.expiresAt <= now then Err(QuoteExpired)
    else
      var held := if amount.Some? then amount.value else quote.maxCost;
      if held < quote.maxCost then Err(QuoteReservationMismatch) else Ok(held)
  }

  /** `validateQuoteForInference` on the platform-paid branch: the charge it authorizes. */
  function QuotedCharge(quote: Quote, messages: Messages, maxOutputTokens: Option<int>, hold: Hold, boundToQuote: bool,
                        now: nat): Result<nat, GatewayProblem>
  {
    if quote.status != QuoteReserved || !hold.active || !boundToQuote then Err(InvalidQuote)
    else if quote.expiresAt <= now then Err(QuoteExpired)
    else
      var maxOutput := if maxOutputTokens.Some? then maxOutputTokens.value else quote.maxOutputTokens;
      if InputTokenBound(messages) > quote.maxInputTokens || maxOutput > quote.maxOutputTokens then Err(QuoteScopeExceeded)
      else if hold.amount < quote.maxCost then Err(ReservationTooSmall)
      else Ok(quote.maxCost)
  }

  /** A quote is made exactly within the limits of an available plan, for a day at most, and is never free. */
  lemma QuotesFollowTheRule(plan: Plan, available: bool, maxInput: int, maxOutput: int, expiresAt: Option<nat>, now: nat)
    ensures var quote := QuoteResource(plan, available, maxInput, maxOutput, expiresAt, now);
      && (quote.Ok? <==>
            && available && 0 < maxInput <= plan.maxInputTokens && 0 < maxOutput <= plan.maxOutputTokens
            && (expiresAt.Some? ==> now < expiresAt.value <= now + 24 * 60 * 60 * 1000)
            && UsageCharge(plan, Usage(maxInput, maxOutput)) > 0)
      && (quote.Ok? ==>
            quote.value == Quote(maxInput, maxOutput, UsageCharge(plan, Usage(maxInput, maxOutput)), QuoteActive,
                                 if expiresAt.Some? then expiresAt.value else now + 10 * 60 * 1000))
  {
  }

  /** A live quote is reserved at its cost or more, and then authorizes exactly requests within its scope, at its cost. */
  lemma QuotesAreUsedWithinTheirScope(quote: Quote, amount: Option<nat>, messages: Messages, maxOutputTokens: Option<int>,
                                      hold: Hold, boundToQuote: bool, now: nat)
    ensures ReserveQuoted(quote, amount, now).Ok?
       <==> quote.status == QuoteActive && now < quote.expiresAt && (amount.Some? ==> quote.maxCost <= amount.value)
    ensures ReserveQuoted(quote, amount, now).Ok? ==>
      ReserveQuoted(quote, amount, now).value == if amount.None? then quote.maxCost else amount.value
    ensures var charge := QuotedCharge(quote, messages, maxOutputTokens, hold, boundToQuote, now);
      && (charge.Ok? <==>
            && quote.status == QuoteReserved && boundToQuote && hold.active && quote.maxCost <= hold.amount
            && now < quote.expiresAt && InputTokenBound(messages) <= quote.maxInputTokens
            && (maxOutputTokens.Some? ==> maxOutputTokens.value <= quote.maxOutputTokens))
      && (charge.Ok? ==> charge.value == quote.maxCost)
  {
  }

  /** A quote made for a plan and reserved since. */
  predicate QuotedFor(plan: Plan, quote: Quote) {
    && quote.status == QuoteReserved
    && quote.maxInputTokens <= plan.maxInputTokens && quote.maxOutputTokens <= plan.maxOutputTokens
    && quote.maxCost == UsageCharge(plan, Usage(quote.maxInputTokens, quote.maxOutputTokens)) > 0
  }

  lemma QuotesFitTheirPlan(plan: Plan, maxInput: int, maxOutput: int, expiresAt: Option<nat>, now: nat)
    requires QuoteResource(plan, true, maxInput, maxOutput, expiresAt, now).Ok?
    ensures var quote := QuoteResource(plan, true, maxInput, maxOutput, expiresAt, now).value;
      QuotedFor(plan, quote.(status := QuoteReserved)) && now < quote.expiresAt <= now + DAY_MS
  {
  }

  /**
   On the quoted path the authorized charge covers the conservative bound of the request exactly when
   the output limit that `prepareExecution` falls back to, the descriptor's own, is not more expensive
   than the quote; with an explicit limit it always does.
   */
  lemma QuotedPathIsCovered(plan: Plan, quote: Quote, input: InferInput, hold: Hold, now: nat)
    requires QuotedFor(plan, quote) && plan.billing == PlatformPrepaid
    requires QuotedCharge(quote, input.messages, input.maxOutputTokens, hold, true, now) == Ok(input.maxCharge)
    requires RequestedOutput(plan, input) > 0 && input.maxCharge <= MAX_BIGINT
    requires hold.ownedByPayer && input.reservationId.Some?
    ensures PrepareProblem(plan, input, true, Some(hold))
         == if input.maxOutputTokens.None? && ConservativeCharge(plan, input) > quote.maxCost
            then Some(AuthorizationTooSmall) else None
    ensures input.maxOutputTokens.Some? ==> ConservativeCharge(plan, input) <= quote.maxCost <= hold.amount
  {
    if input.maxOutputTokens.Some? {
      ChargeIsMonotone(plan, Usage(InputTokenBound(input.messages), input.maxOutputTokens.value),
                       Usage(quote.maxInputTokens, quote.maxOutputTokens));
    }
  }

  /** Without an explicit output limit a properly quoted request can be refused. */
  lemma QuotedWithoutLimitCanBeRefused()
    ensures var plan := Plan(1000, 100, 1, false, 0, 1_000_000, PlatformPrepaid, false);
      var quoted := QuoteResource(plan, true, 1000, 1, None, 0);
      && quoted == Ok(Quote(1000, 1, 1, QuoteActive, 600_000))
      && var quote := quoted.value.(status := QuoteReserved);
         var hold := Hold(true, true, 1);
         && QuotedCharge(quote, Messages(50, 1), None, hold, true, 0) == Ok(1)
         && PrepareProblem(plan, InferInput(Messages(50, 1), None, 1, Some(0)), true, Some(hold)) == Some(AuthorizationTooSmall)
  {
    var plan := Plan(1000, 100, 1, false, 0, 1_000_000, PlatformPrepaid, false);
    assert UsageCharge(plan, Usage(1000, 1)) == 1;
    assert UsageCharge(plan, Usage(98, 100)) == 100;
  }
}
