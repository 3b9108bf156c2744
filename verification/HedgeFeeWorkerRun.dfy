/** HedgeFeeWorker.runOnce as sequential code over the fee store, and that the fee worker's program counters are
    this code when nobody else acts in between (backend/src/modules/hedge/hedge-fee-worker.ts:47-80). */
module HedgeFeeWorkerRun {
  import opened Arithmetic
  import opened HedgeRoute
  import opened HedgeNetPnl
  import opened HedgeRows
  import opened HedgeWorker
  import opened HedgeMachine
  import opened HedgeStores

  datatype FeeReplies = FeeReplies(found: Reply<Option<OrderReply>>, trades: Reply<seq<Fill>>)

  datatype FeeTables = FeeTables(rows: seq<Row>, fills: seq<seq<Fill>>)

  /** now() reads claimedAt at the claim and releasedAt at a release. */
  datatype FeeConfig = FeeConfig(id: WorkerId, claimedAt: nat, releasedAt: nat, retryDelayMs: nat)

  predicate Aligned(t: FeeTables, h: nat) { |t.fills| == |t.rows| && h < |t.rows| }

  function FeeRank(worker: FeeWorker): nat {
    if worker.FeeIdle? then 0
    else match worker.pc
         case FeeReleasing(_, _) => 1
         case FeeCommitting(_, _) => 2
         case FeeTrading(_) => 3
         case FeeQuerying(_) => 4
  }

  /** The fee worker's program counters run to the end, alone. */
  function RunFeeAlone(c: FeeConfig, worker: FeeWorker, replies: FeeReplies, t: FeeTables): FeeTables
    requires worker.FeeRunning? ==> Aligned(t, worker.job.hedge)
    decreases FeeRank(worker)
  {
    if worker.FeeIdle? then t
    else
      var job, h := worker.job, worker.job.hedge;
      match worker.pc
      case FeeQuerying(route) => RunFeeAlone(c, AfterFeeQuery(job, route, replies.found), replies, t)
      case FeeTrading(order) => RunFeeAlone(c, AfterTrades(job, order, replies.trades), replies, t)
      case FeeCommitting(order, fills) => (
        match CompleteReconciliation(t.rows[h], t.fills[h], c.id, job.filled, order.venueOrderId, order.quote, fills)
        case Ok(done) => FeeTables(t.rows[h := done.row], t.fills[h := done.table])
        case Err(_) => RunFeeAlone(c, FeeError(job, VenueError(FeeWorkerInternal, true, None)), replies, t))
      case FeeReleasing(_, after) => (
        match FeeReleaseForRetry(t.rows[h], c.id, c.releasedAt, RetryDelay(c.retryDelayMs, job.attemptCount, after))
        case Ok(row) => FeeTables(t.rows[h := row], t.fills)
        case Err(_) => t)
  }

  /** Row h has pending fees under worker w's fee lease. */
  predicate FeeHeld(t: FeeTables, h: nat, w: WorkerId)
    requires h < |t.rows|
  {
    var r := t.rows[h];
    r.fee.FeePending? && r.feeLease.Some? && r.feeLease.value.owner == w
  }

  class FeeJobWorker {
    const store: HedgeFeeStore
    const config: FeeConfig
    const routes: map<nat, Route>  // by hedged token

    constructor (store: HedgeFeeStore, config: FeeConfig, routes: map<nat, Route>)
      ensures this.store == store && this.config == config && this.routes == routes
    {
      this.store, this.config, this.routes := store, config, routes;
    }

    function RouteOf(job: FeeJob): Option<Route> {
      if job.intent.token in routes then Some(routes[job.intent.token]) else None
    }

    function State(): FeeTables
      reads store.db
    {
      FeeTables(store.db.rows, store.db.fills)
    }

    /** The whole iteration leaves the tables as the program counters do. */
    method RunOnce(leaseMs: nat, replies: FeeReplies) returns (claimed: Option<FeeJob>)
      requires |store.db.fills| == |store.db.rows|
      modifies store.db`rows, store.db`fills
      ensures claimed.None? ==> State() == old(State())
      ensures claimed.Some? ==>
                var h, before := claimed.value.hedge, old(State());
                && h < |before.rows|
                && var r, now := before.rows[h], config.claimedAt;
                   && r.fee.FeePending? && r.feeNextAttemptAt <= now
                   && (r.feeLease.None? || r.feeLease.value.expiresAt <= now)
                   && var row := r.(feeLease := Some(Lease(config.id, now + leaseMs)),
                                    feeAttemptCount := r.feeAttemptCount + 1);
                   && claimed.value == FeeJobOf(h, row)
                   && State() == RunFeeAlone(config, AfterFeeClaim(claimed.value, RouteOf(claimed.value)), replies,
                                             FeeTables(before.rows[h := row], before.fills))
    {
      hide RunFeeAlone, AfterFeeClaim, RetryDelay, CompleteReconciliation;
      claimed := store.ClaimNext(config.id, config.claimedAt, leaseMs);
      if claimed.None? { return; }
      var error := Attempt(claimed.value, replies);
      if error.Some? { ScheduleRetry(claimed.value, error.value, replies); }
    }

    /** The try block; its errors are caught and rescheduled. */
    method Attempt(job: FeeJob, replies: FeeReplies) returns (error: Option<VenueError>)
      requires Aligned(State(), job.hedge)
      modifies store.db`rows, store.db`fills
      ensures Aligned(State(), job.hedge)
      ensures RunFeeAlone(config, AfterFeeClaim(job, RouteOf(job)), replies, old(State()))
              == match error
                 case None => State()
                 case Some(e) => RunFeeAlone(config, FeeError(job, e), replies, State())
      ensures (job.intent.token !in routes || routes[job.intent.token].symbol != job.symbol) ==>
                State() == old(State()) && error == Some(VenueError(RouteNotConfigured, false, None))
      ensures job.intent.token in routes && routes[job.intent.token].symbol == job.symbol && replies.found.Refusal? ==>
                State() == old(State()) && error == Some(replies.found.error)
      ensures job.intent.token in routes && routes[job.intent.token].symbol == job.symbol
              && replies.found == Answer(None) ==>
                error.None? && State() == Postponed(old(State()), job, None)
    {
      hide CompleteReconciliation, FeeReleaseForRetry, RetryDelay;
      if job.intent.token !in routes || routes[job.intent.token].symbol != job.symbol {
        return Some(VenueError(RouteNotConfigured, false, None));
      }
      var route := routes[job.intent.token];
      if replies.found.Refusal? { return Some(replies.found.error); }
      if replies.found.value.None? {
        ScheduleRetry(job, VenueError(FeeOrderUnconfirmed, true, None), replies);
        return None;
      }
      var order := replies.found.value.value;
      error := AssertOrderMatchesJob(order, job, route);
      if error.Some? { return; }
      assert AfterFeeQuery(job, route, replies.found) == FeeRunning(job, FeeTrading(order));
      if replies.trades.Refusal? { return Some(replies.trades.error); }
      error := CommitTrades(job, order, replies);
    }

    method AssertOrderMatchesJob(order: OrderReply, job: FeeJob, route: Route) returns (error: Option<VenueError>)
      ensures error.None? <==> order.venueOrderId == job.venueOrderId && order.executed == job.filled
                               && order.quote == job.quote < TEN_TO_78 && job.filled % route.stepSizeRaw == 0
      ensures AfterFeeQuery(job, route, Answer(Some(order)))
              == match error case None => FeeRunning(job, FeeTrading(order)) case Some(e) => FeeError(job, e)
    {
      if job.venueOrderId != order.venueOrderId { return Some(VenueError(VenueResponseInvalid, true, None)); }
      if order.executed % route.stepSizeRaw != 0 { return Some(VenueError(ExecutedQuantityInvalid, true, None)); }
      if order.executed != job.filled || !SameQuantity(job.quote, order.quote) {
        return Some(VenueError(VenueResponseInvalid, true, None));
      }
      error := None;
    }

    /** The exact comparison of the trades with the order, and the commit. */
    method CommitTrades(job: FeeJob, order: OrderReply, replies: FeeReplies) returns (error: Option<VenueError>)
      requires Aligned(State(), job.hedge) && replies.trades.Answer?
      modifies store.db`rows, store.db`fills
      ensures Aligned(State(), job.hedge)
      ensures RunFeeAlone(config, FeeRunning(job, FeeTrading(order)), replies, old(State()))
              == match error
                 case None => State()
                 case Some(e) => RunFeeAlone(config, FeeError(job, e), replies, State())
      ensures var fills := replies.trades.value;
              var matches :=
                && fills != [] && (forall f :: f in fills ==> (f.isBuyer <==> job.intent.side.Buy?))
                && SumQuantity(fills) == order.executed * Pow10(36 - job.intent.tokenDecimals) < TEN_TO_78
                && SumQuote(fills) == order.quote < TEN_TO_78;
              if !matches then State() == old(State()) && error == Some(VenueError(TradeFillsIncomplete, true, None))
              else match CompleteReconciliation(old(store.db.rows)[job.hedge], old(store.db.fills)[job.hedge], config.id,
                                                job.filled, order.venueOrderId, order.quote, fills)
                   case Err(_) => State() == old(State()) && error == Some(VenueError(FeeWorkerInternal, true, None))
                   case Ok(done) => error.None? && State() == FeeTables(old(store.db.rows)[job.hedge := done.row],
                                                                         old(store.db.fills)[job.hedge := done.table])
    {
      hide CompleteReconciliation, FeeReleaseForRetry, RetryDelay;
      var fills := replies.trades.value;
      var quantity, quote := store.SumTrades(fills);
      var wrongSide := exists f :: f in fills && f.isBuyer != job.intent.side.Buy?;
      if fills == [] || wrongSide
         || !SameQuantity(quantity, Times(order.executed, Pow10(36 - job.intent.tokenDecimals)))
         || !SameQuantity(quote, order.quote) {
        return Some(VenueError(TradeFillsIncomplete, true, None));
      }
      assert AfterTrades(job, order, replies.trades) == FeeRunning(job, FeeCommitting(order, fills));
      var failed := store.CompleteReconciliation(job.hedge, config.id, job.filled, order.venueOrderId, order.quote, fills);
      error := if failed.Some? then Some(VenueError(FeeWorkerInternal, true, None)) else None;
    }

    /** The fee lease given back by its holder, to be claimed again after the delay; nothing without the lease. */
    function Postponed(t: FeeTables, job: FeeJob, retryAfterMs: Option<nat>): FeeTables
      requires job.hedge < |t.rows|
    {
      if !FeeHeld(t, job.hedge, config.id) then t
      else
        var delay := RetryDelay(config.retryDelayMs, job.attemptCount, retryAfterMs);
        t.(rows := t.rows[job.hedge := t.rows[job.hedge].(feeLease := None, feeNextAttemptAt := config.releasedAt + delay)])
    }

    method ScheduleRetry(job: FeeJob, e: VenueError, replies: FeeReplies)
      requires Aligned(State(), job.hedge)
      modifies store.db`rows
      ensures Aligned(State(), job.hedge)
      ensures State() == RunFeeAlone(config, FeeError(job, e), replies, old(State()))
      ensures State() == Postponed(old(State()), job, e.retryAfterMs)
    {
      var _ := store.ReleaseForRetry(job.hedge, config.id, config.releasedAt,
                                     RetryDelay(config.retryDelayMs, job.attemptCount, e.retryAfterMs));
    }
  }
}
