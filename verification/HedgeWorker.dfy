/** One iteration of the hedge worker and of the fee worker, as program counters between awaits
    (backend/src/modules/hedge/hedge-worker.ts, backend/src/modules/hedge/hedge-fee-worker.ts).  Each
    statement or adapter call is a separate step, since other workers run in between. */
module HedgeWorker {
  import opened Arithmetic
  import opened HedgeRoute
  import opened HedgeNetPnl
  import opened HedgeRows

  // ---------------------------------------------------------------- adapter results

  datatype OrderState = OrderPending | OrderFilled | OrderFailed(code: ErrorCode)

  /** A parsed order report; quantities are cumulative, zero meaning none. */
  datatype OrderReply = OrderReply(state: OrderState, venueOrderId: nat, executed: nat, quote: nat)

  datatype VenueError = VenueError(code: ErrorCode, retryable: bool, retryAfterMs: Option<nat>)

  datatype Reply<+T> = Answer(value: T) | Refusal(error: VenueError)

  // ---------------------------------------------------------------- the claimed job and its plan

  /** The claim-time snapshot. */
  datatype Job = Job(hedge: HedgeId, intent: Intent, attemptCount: nat, submissionAttempted: bool, cancelRequested: bool)

  function JobOf(h: HedgeId, r: Row): Job {
    Job(h, r.intent, r.attemptCount, r.submissionAttemptedAt.Some?, r.cancelRequestedAt.Some?)
  }

  datatype Plan = Plan(jobRoute: JobRoute, target: nat)

  /** What the worker computes before its first await. */
  function MakePlan(job: Job, config: Option<Route>, maxOrderAgeMs: nat): Reply<Plan> {
    if config.None? then Refusal(VenueError(RouteNotConfigured, false, None))
    else
      var route := config.value;
      if route.quoteToken != job.intent.referenceToken then Refusal(VenueError(ReferenceTokenMismatch, false, None))
      else if Quantize(job.intent.amount, route.stepSizeRaw).None? then Refusal(VenueError(AmountBelowStepSize, false, None))
      else if LimitPrice(job.intent.side, job.intent.amount, job.intent.referenceAmount, route).None?
      then Refusal(VenueError(WorkerInternal, true, None))
      else
        Answer(Plan(
                 JobRoute(route, job.hedge,
                          LimitPrice(job.intent.side, job.intent.amount, job.intent.referenceAmount, route).value,
                          maxOrderAgeMs),
                 Quantize(job.intent.amount, route.stepSizeRaw).value))
  }

  // ---------------------------------------------------------------- program counter

  datatype Pc =
    | Validating
    | Preparing
    | Querying
    | Authorizing
    | Submitting
    | AwaitingSubmit
    | Observing(order: OrderReply)
    | CheckingCancel(order: OrderReply)
    | Canceling
    | AwaitingCancel
    | Applying(order: OrderReply, pendingCode: ErrorCode)

  datatype End =
    | Failing(code: ErrorCode)
    | Releasing(code: ErrorCode, retryAfterMs: Option<nat>, inTry: bool)  // inTry: a thrown release is caught once

  datatype Worker =
    | Idle
    | Running(job: Job, plan: Plan, pc: Pc)
    | Closing(job: Job, end: End)

  /** handleJobError. */
  function AfterError(job: Job, e: VenueError): Worker {
    Closing(job, if !e.retryable && !job.submissionAttempted then Failing(e.code)
                 else Releasing(e.code, e.retryAfterMs, false))
  }

  /** A store error in the try block: only the non-canonical settlement is not retryable. */
  function AfterStoreError(job: Job, e: StoreError): Worker {
    AfterError(job, if e.NonCanonical? then VenueError(SettlementNonCanonical, false, None)
                    else VenueError(WorkerInternal, true, None))
  }

  function AfterClaim(job: Job, config: Option<Route>, maxOrderAgeMs: nat): Worker {
    match MakePlan(job, config, maxOrderAgeMs)
    case Refusal(e) => AfterError(job, e)
    case Answer(plan) => Running(job, plan, if job.submissionAttempted then Querying else Validating)
  }

  /** applyOrderResult's checks before it touches the store: whole venue steps, paired evidence, no more than
      the target, and a filled order exactly at the target. */
  function ReplyError(order: OrderReply, plan: Plan): (error: Option<ErrorCode>)
    ensures error.None? && order.state.OrderFilled? ==> order.executed == plan.target
  {
    if order.executed % plan.jobRoute.route.stepSizeRaw != 0 then Some(ExecutedQuantityInvalid)
    else if (order.executed == 0) != (order.quote == 0) then Some(VenueResponseInvalid)
    else if order.executed > plan.target then Some(VenueResponseInvalid)
    else if order.state.OrderFilled? && order.executed != plan.target then Some(VenueResponseInvalid)
    else None
  }

  function EvidenceOf(order: OrderReply): Option<Evidence> {
    if order.executed == 0 then None else Some(Evidence(order.executed, order.quote))
  }

  /** The statement a worker is waiting for; the row is unchanged when none is needed. */
  function Statement(w: WorkerId, worker: Worker, r: Row, now: nat, retryDelayMs: nat): Outcome<Change> {
    match worker
    case Idle => Err(InvalidArgument)
    case Running(job, plan, pc) => (
      match pc
      case Preparing => PrepareRoute(r, w, plan.jobRoute)
      case Authorizing => AuthorizeSubmission(r, w, now)
      case Observing(_) => ObserveOrder(r, w, now)
      case CheckingCancel(_) => Ok(Change(if CancelDue(r, w, now) then RequestCancel(r, now) else r, 0))
      case Applying(order, _) =>
        if ReplyError(order, plan).Some? then Err(InvalidArgument)
        else if order.state.OrderFilled? then
          CompleteTerminal(r, w, now, Filled, None, Some(OrderIds(plan.jobRoute.clientOrderId, order.venueOrderId)),
                           EvidenceOf(order))
        else if order.state.OrderFailed? then
          CompleteTerminal(r, w, now, Failed, Some(order.state.code),
                           Some(OrderIds(plan.jobRoute.clientOrderId, order.venueOrderId)), EvidenceOf(order))
        else if order.executed > 0 then
          RecordProgress(r, w, now, plan.jobRoute.clientOrderId, order.venueOrderId, order.executed, order.quote)
        else Ok(Change(r, 0))
      case _ => Err(InvalidArgument))
    case Closing(job, Failing(code)) => CompleteTerminal(r, w, now, Failed, Some(code), None, None)
    case Closing(job, Releasing(code, after, _)) =>
      ReleaseForRetry(r, w, now, code, RetryDelay(retryDelayMs, job.attemptCount, after))
  }

  /** Where the worker goes once its statement has returned; cancelDue is the row count of the cancel
      authorisation. */
  function AfterStatement(worker: Worker, cancelDue: bool, out: Outcome<Change>): Worker {
    match worker
    case Idle => Idle
    case Running(job, plan, pc) => (
      match pc
      case Preparing => if out.Ok? then Running(job, plan, Querying) else AfterStoreError(job, out.error)
      case Authorizing => if out.Ok? then Running(job, plan, Submitting) else AfterStoreError(job, out.error)
      case Observing(order) =>
        if out.Err? then AfterStoreError(job, out.error)
        else if order.state.OrderPending? then Running(job, plan, CheckingCancel(order))
        else Running(job, plan, Applying(order, OrderPendingCode))
      case CheckingCancel(order) =>
        if out.Err? then AfterStoreError(job, out.error)
        else Running(job, plan, if cancelDue then Canceling else Applying(order, OrderPendingCode))
      case Applying(order, pendingCode) =>
        if ReplyError(order, plan).Some? then AfterError(job, VenueError(ReplyError(order, plan).value, true, None))
        else if out.Err? then AfterStoreError(job, out.error)
        else if order.state.OrderPending? then Closing(job, Releasing(pendingCode, None, true))
        else Idle
      case _ => worker)
    case Closing(job, Failing(_)) => Idle
    case Closing(job, Releasing(_, _, inTry)) =>
      if out.Err? && inTry then AfterStoreError(job, out.error) else Idle
  }

  /** Whether the worker is waiting for the store. */
  predicate AwaitsStore(worker: Worker) {
    worker.Closing? ||
    (worker.Running? && (worker.pc.Preparing? || worker.pc.Authorizing? || worker.pc.Observing? ||
                         worker.pc.CheckingCancel? || worker.pc.Applying?))
  }

  /** validateLimitOrder's answer. */
  function AfterValidate(worker: Worker, reply: Reply<()>): Worker
    requires worker.Running?
  {
    match reply
    case Refusal(e) => AfterError(worker.job, e)
    case Answer(_) => worker.(pc := Preparing)
  }

  /** queryOrder's answer; a missing order is resubmitted only when none was ever attempted. */
  function AfterQuery(worker: Worker, reply: Reply<Option<OrderReply>>): Worker
    requires worker.Running?
  {
    var job := worker.job;
    match reply
    case Refusal(e) => AfterError(job, e)
    case Answer(Some(order)) => worker.(pc := Observing(order))
    case Answer(None) =>
      if job.submissionAttempted
      then Closing(job, Releasing(if job.cancelRequested then CancelUnconfirmed else SubmissionUnconfirmed, None, false))
      else worker.(pc := Authorizing)
  }

  function AfterOrder(worker: Worker, reply: Reply<OrderReply>, pendingCode: ErrorCode): Worker
    requires worker.Running?
  {
    match reply
    case Refusal(e) => AfterError(worker.job, e)
    case Answer(order) => worker.(pc := Applying(order, pendingCode))
  }

  // ---------------------------------------------------------------- retry delay

  const MAX_BACKOFF_MS: nat := 60_000
  const MAX_RETRY_DELAY_MS: nat := 604_800_000

  function Pow2(n: nat): (p: nat)
    ensures p > 0
  {
    if n == 0 then 1 else 2 * Pow2(n - 1)
  }

  function Exponent(attemptCount: nat): nat {
    if attemptCount <= 1 then 0 else if attemptCount - 1 > 30 then 30 else attemptCount - 1
  }

  function Backoff(base: nat, attemptCount: nat): nat {
    var scaled := Times(base, Pow2(Exponent(attemptCount)));
    if scaled < MAX_BACKOFF_MS then scaled else MAX_BACKOFF_MS
  }

  function RetryDelay(base: nat, attemptCount: nat, retryAfterMs: Option<nat>): nat {
    var own := Backoff(base, attemptCount);
    if retryAfterMs.Some? && retryAfterMs.value > own then retryAfterMs.value else own
  }

  lemma {:induction false} Pow2Monotone(m: nat, n: nat)
    requires m <= n
    ensures Pow2(m) <= Pow2(n)
    decreases n
  {
    if m < n { Pow2Monotone(m, n - 1); }
  }

  lemma BackoffGrows(base: nat, attempts: nat, more: nat)
    requires base > 0 && attempts <= more
    ensures 1 <= Backoff(base, attempts) <= Backoff(base, more) <= MAX_BACKOFF_MS
  {
    hide Pow2;
    var small, large := Pow2(Exponent(attempts)), Pow2(Exponent(more));
    Pow2Monotone(Exponent(attempts), Exponent(more));
    ScaleMonotone(base, small, large);
  }

  lemma ScaleMonotone(base: nat, small: nat, large: nat)
    requires base > 0 && 1 <= small <= large
    ensures 1 <= Times(base, small) <= Times(base, large)
  {
    MulMonotone(1, small, base);
    MulMonotone(small, large, base);
  }

  /** Delays never shrink as attempts accumulate, honour the venue's Retry-After, stay capped when there is
      none, and are always within the range that releaseForRetry accepts. */
  lemma RetryDelayRange(base: nat, attempts: nat, more: nat, after: Option<nat>)
    requires base > 0 && attempts <= more
    requires after.Some? ==> after.value <= MAX_RETRY_DELAY_MS
    ensures 1 <= RetryDelay(base, attempts, after) <= MAX_RETRY_DELAY_MS
    ensures RetryDelay(base, attempts, after) <= RetryDelay(base, more, after)
    ensures after.Some? ==> after.value <= RetryDelay(base, attempts, after)
    ensures after.None? ==> RetryDelay(base, attempts, after) <= MAX_BACKOFF_MS
  {
    hide Backoff;
    BackoffGrows(base, attempts, more);
  }

  // ---------------------------------------------------------------- fee worker

  datatype FeeJob = FeeJob(
    hedge: HedgeId,
    intent: Intent,
    filled: nat,
    quote: nat,
    venueOrderId: nat,
    attemptCount: nat,
    symbol: string)

  datatype FeePc =
    | FeeQuerying(route: Route)
    | FeeTrading(order: OrderReply)
    | FeeCommitting(order: OrderReply, fills: seq<Fill>)
    | FeeReleasing(code: ErrorCode, retryAfterMs: Option<nat>)

  datatype FeeWorker = FeeIdle | FeeRunning(job: FeeJob, pc: FeePc)

  function FeeError(job: FeeJob, e: VenueError): FeeWorker { FeeRunning(job, FeeReleasing(e.code, e.retryAfterMs)) }

  /** The route table lookup of a claimed job. */
  function AfterFeeClaim(job: FeeJob, config: Option<Route>): FeeWorker {
    if config.None? || config.value.symbol != job.symbol then FeeError(job, VenueError(RouteNotConfigured, false, None))
    else FeeRunning(job, FeeQuerying(config.value))
  }

  /** queryOrder and assertOrderMatchesJob. */
  function AfterFeeQuery(job: FeeJob, route: Route, reply: Reply<Option<OrderReply>>): FeeWorker {
    match reply
    case Refusal(e) => FeeError(job, e)
    case Answer(None) => FeeRunning(job, FeeReleasing(FeeOrderUnconfirmed, None))
    case Answer(Some(order)) =>
      if order.venueOrderId != job.venueOrderId then FeeError(job, VenueError(VenueResponseInvalid, true, None))
      else if order.executed % route.stepSizeRaw != 0 then FeeError(job, VenueError(ExecutedQuantityInvalid, true, None))
      else if order.executed != job.filled || !SameQuantity(job.quote, order.quote)
      then FeeError(job, VenueError(VenueResponseInvalid, true, None))
      else FeeRunning(job, FeeTrading(order))
  }

  /** queryOrderTrades and the exact comparison with the order's cumulative quantities. */
  function AfterTrades(job: FeeJob, order: OrderReply, reply: Reply<seq<Fill>>): FeeWorker {
    match reply
    case Refusal(e) => FeeError(job, e)
    case Answer(fills) =>
      if fills == [] || (exists f :: f in fills && f.isBuyer != job.intent.side.Buy?)
         || !SameQuantity(SumQuantity(fills), Times(order.executed, Pow10(36 - job.intent.tokenDecimals)))
         || !SameQuantity(SumQuote(fills), order.quote)
      then FeeError(job, VenueError(TradeFillsIncomplete, true, None))
      else FeeRunning(job, FeeCommitting(order, fills))
  }
}
