/** The hedge execution and fee reconciliation protocols as one transition system: hedge rows and inventory,
    job and fee workers between awaits, and the exchange.  Steps interleave freely; a worker may stall, crash
    or lose its lease anywhere, and every database statement may fail before or after it commits. */
module HedgeMachine {
  import opened Arithmetic
  import opened HedgeRoute
  import opened HedgeNetPnl
  import opened HedgeRows
  import opened HedgeWorker
  import opened HedgePlanner

  // ---------------------------------------------------------------- the exchange

  /** A request that reached the exchange for this hedge's client order id. */
  datatype Call =
    | SubmitCall(jobRoute: JobRoute, side: Side, quantity: nat)
    | CancelCall

  datatype Phase = Open | FullyExecuted | Closed(code: ErrorCode)

  datatype VenueOrder =
    | NoOrder
    | InFlight
    | Rejected
    | Order(id: nat, phase: Phase, executed: nat, quote: nat, seen: set<Evidence>, trades: seq<FillFields>)
    // seen: every pair that executed and quote have been; trades: oldest first

  /** An order report tells the truth about a moment no later than now: terminal reports carry the final
      amounts, pending ones a pair of amounts that the order has had. */
  predicate Honest(v: VenueOrder, o: OrderReply) {
    && v.Order?
    && o.venueOrderId == v.id
    && match o.state
       case OrderPending => Evidence(o.executed, o.quote) in v.seen
       case OrderFilled => v.phase.FullyExecuted? && o.executed == v.executed && o.quote == v.quote
       case OrderFailed(code) => v.phase == Closed(code) && o.executed == v.executed && o.quote == v.quote
  }

  // ---------------------------------------------------------------- state

  /** One hedge: its row, its stored fills, its order at the exchange and every call made for it. */
  datatype Hedge = Hedge(settlement: Settlement, row: Row, fills: seq<Fill>, venue: VenueOrder, calls: seq<Call>)

  datatype Sys = Sys(
    now: nat,
    retryDelayMs: nat,
    hedges: seq<Hedge>,  // indexed by hedge id
    workers: seq<Worker>,
    feeWorkers: seq<FeeWorker>,
    balances: map<nat, int>,
    moved: map<nat, int>)  // initial balances and every movement other than hedge fills

  function Balance(m: map<nat, int>, token: nat): int { if token in m then m[token] else 0 }

  /** applyInventoryFillDelta's upsert. */
  function Add(m: map<nat, int>, token: nat, delta: int): map<nat, int> {
    if delta == 0 then m else m[token := Balance(m, token) + delta]
  }

  /** How a database call ends for its caller. */
  datatype Fault = NoFault | LostBefore | LostAfter

  datatype Step =
    | Tick(to: nat)
    | Move(token: nat, delta: int)
    | CreateHedge(settlement: Settlement)
    | SetCanonical(h: nat, canonical: bool)
    | Claim(w: nat, h: nat, leaseMs: nat, config: Option<Route>, maxOrderAgeMs: nat, fault: Fault)
    | RunStatement(w: nat, fault: Fault)
    | ValidateReply(w: nat, validated: Reply<()>)
    | QueryReply(w: nat, found: Reply<Option<OrderReply>>)
    | Submit(w: nat)
    | SubmitReply(w: nat, submitted: Reply<OrderReply>)
    | Cancel(w: nat)
    | CancelReply(w: nat, canceled: Reply<OrderReply>)
    | Crash(w: nat)
    | Accept(h: nat, id: nat)
    | Reject(h: nat)
    | Trade(h: nat, quantity: nat, fill: FillFields)
    | Close(h: nat, code: ErrorCode)
    | FeeClaim(f: nat, h: nat, leaseMs: nat, config: Option<Route>, fault: Fault)
    | FeeQueryReply(f: nat, found: Reply<Option<OrderReply>>)
    | FeeTradesReply(f: nat, trades: Reply<seq<Fill>>)
    | FeeStatement(f: nat, fault: Fault)
    | FeeCrash(f: nat)

  predicate IsRunning(s: Sys, w: nat) {
    w < |s.workers| && s.workers[w].Running? && s.workers[w].job.hedge < |s.hedges|
  }

  predicate IsFeeRunning(s: Sys, f: nat) {
    f < |s.feeWorkers| && s.feeWorkers[f].FeeRunning? && s.feeWorkers[f].job.hedge < |s.hedges|
  }

  /** A price at or better than the limit. */
  predicate PriceOk(side: Side, price: nat, limit: nat) { if side.Buy? then 0 < price <= limit else limit <= price }

  /** The next trade of the order as it was sent: of its side, at or better than its limit, under a new id. */
  predicate TradeAllowed(g: Hedge, quantity: nat, fill: FillFields) {
    && g.venue.Order? && g.venue.phase.Open?
    && quantity > 0 && fill.quoteQuantity > 0
    && g.calls != [] && g.calls[0].SubmitCall?
    && g.venue.executed + quantity <= g.calls[0].quantity
    && AtOrBetter(g.calls[0].side, fill.quoteQuantity, quantity, g.calls[0].jobRoute.limitPrice,
                  g.calls[0].jobRoute.route.tokenDecimals)
    && PriceOk(g.calls[0].side, fill.price, g.calls[0].jobRoute.limitPrice)
    && fill.quantity == Times(quantity, Pow10(36 - g.calls[0].jobRoute.route.tokenDecimals))
    && fill.orderId == g.venue.id
    && fill.isBuyer == g.calls[0].side.Buy?
    && (g.venue.trades != [] ==> g.venue.trades[|g.venue.trades| - 1].tradeId < fill.tradeId)
  }

  predicate Enabled(s: Sys, step: Step) {
    match step
    case Tick(to) => s.now <= to
    case Move(_, _) => true
    case CreateHedge(settlement) => PlanHedge(settlement).Some?
    case SetCanonical(h, _) => h < |s.hedges|
    case Claim(w, h, _, config, _, _) =>
      && w < |s.workers| && s.workers[w].Idle?
      && h < |s.hedges| && Claimable(s.hedges[h].row, s.now)
      && (config.Some? ==> config.value.tokenDecimals == s.hedges[h].row.intent.tokenDecimals)
    case RunStatement(w, _) =>
      w < |s.workers| && AwaitsStore(s.workers[w]) && s.workers[w].job.hedge < |s.hedges|
    case ValidateReply(w, _) => IsRunning(s, w) && s.workers[w].pc.Validating?
    case QueryReply(w, found) =>
      && IsRunning(s, w) && s.workers[w].pc.Querying?
      && (found.Answer? && found.value.Some? ==> Honest(s.hedges[s.workers[w].job.hedge].venue, found.value.value))
    case Submit(w) => IsRunning(s, w) && s.workers[w].pc.Submitting?
    case SubmitReply(w, submitted) =>
      && IsRunning(s, w) && s.workers[w].pc.AwaitingSubmit?
      && (submitted.Answer? ==> Honest(s.hedges[s.workers[w].job.hedge].venue, submitted.value))
      && (submitted.Refusal? && !submitted.error.retryable ==> s.hedges[s.workers[w].job.hedge].venue.Rejected?)
    case Cancel(w) => IsRunning(s, w) && s.workers[w].pc.Canceling?
    case CancelReply(w, canceled) =>
      && IsRunning(s, w) && s.workers[w].pc.AwaitingCancel?
      && (canceled.Answer? ==> Honest(s.hedges[s.workers[w].job.hedge].venue, canceled.value))
    case Crash(w) => w < |s.workers|
    case Accept(h, _) => h < |s.hedges| && s.hedges[h].venue.InFlight?
    case Reject(h) => h < |s.hedges| && s.hedges[h].venue.InFlight?
    case Trade(h, quantity, fill) => h < |s.hedges| && TradeAllowed(s.hedges[h], quantity, fill)
    case Close(h, _) => h < |s.hedges| && s.hedges[h].venue.Order? && s.hedges[h].venue.phase.Open?
    case FeeClaim(f, h, _, config, _) =>
      && f < |s.feeWorkers| && s.feeWorkers[f].FeeIdle?
      && h < |s.hedges| && FeeClaimable(s.hedges[h].row, s.now)
      && (config.Some? ==> config.value.tokenDecimals == s.hedges[h].row.intent.tokenDecimals)
    case FeeQueryReply(f, _) => IsFeeRunning(s, f) && s.feeWorkers[f].pc.FeeQuerying?
    case FeeTradesReply(f, _) => IsFeeRunning(s, f) && s.feeWorkers[f].pc.FeeTrading?
    case FeeStatement(f, _) =>
      IsFeeRunning(s, f) && (s.feeWorkers[f].pc.FeeCommitting? || s.feeWorkers[f].pc.FeeReleasing?)
    case FeeCrash(f) => f < |s.feeWorkers|
  }

  // ---------------------------------------------------------------- effects on one hedge

  function WithRow(g: Hedge, row: Row): Hedge { g.(row := row) }

  function FreshHedge(settlement: Settlement, now: nat): Hedge
    requires PlanHedge(settlement).Some?
  {
    Hedge(settlement, FreshRow(PlanHedge(settlement).value, now), [], NoOrder, [])
  }

  function FreshOrder(id: nat): VenueOrder { Order(id, Open, 0, 0, {Evidence(0, 0)}, []) }

  function Traded(v: VenueOrder, quantity: nat, fill: FillFields, target: nat): VenueOrder
    requires v.Order?
  {
    v.(executed := v.executed + quantity, quote := v.quote + fill.quoteQuantity,
       seen := v.seen + {Evidence(v.executed + quantity, v.quote + fill.quoteQuantity)},
       trades := v.trades + [fill],
       phase := if v.executed + quantity == target then FullyExecuted else v.phase)
  }

  function FeeJobOf(h: nat, r: Row): FeeJob {
    FeeJob(h, r.intent, Or0(r.filled), Or0(r.quote), Or0(r.venueOrderId), r.feeAttemptCount,
           if r.route.Some? then r.route.value.route.symbol else "")
  }

  /** What a fee worker's statement does to the hedge. */
  function FeeEffect(f: nat, worker: FeeWorker, g: Hedge, now: nat, retryDelayMs: nat): Outcome<Hedge>
    requires worker.FeeRunning?
  {
    match worker.pc
    case FeeCommitting(order, fills) => (
      match CompleteReconciliation(g.row, g.fills, f, worker.job.filled, order.venueOrderId, order.quote, fills)
      case Err(e) => Err(e)
      case Ok(done) => Ok(g.(row := done.row, fills := done.table)))
    case FeeReleasing(_, after) => (
      match FeeReleaseForRetry(g.row, f, now, RetryDelay(retryDelayMs, worker.job.attemptCount, after))
      case Err(e) => Err(e)
      case Ok(row) => Ok(WithRow(g, row)))
    case _ => Err(InvalidArgument)
  }

  function AfterFeeStatement(worker: FeeWorker, out: Outcome<Hedge>): FeeWorker
    requires worker.FeeRunning?
  {
    if worker.pc.FeeCommitting? && out.Err?
    then FeeError(worker.job, VenueError(FeeWorkerInternal, true, None))
    else FeeIdle
  }

  /** The outcome the worker sees, and the change that is committed. */
  function Seen<T>(out: Outcome<T>, fault: Fault): Outcome<T> {
    if fault.NoFault? then out else Err(ConnectionLost)
  }

  predicate Committed<T>(out: Outcome<T>, fault: Fault) { out.Ok? && !fault.LostBefore? }

  // ---------------------------------------------------------------- transitions

  function SetHedge(s: Sys, h: nat, g: Hedge): Sys
    requires h < |s.hedges|
  {
    s.(hedges := s.hedges[h := g])
  }

  function SetWorker(s: Sys, w: nat, worker: Worker): Sys
    requires w < |s.workers|
  {
    s.(workers := s.workers[w := worker])
  }

  function SetFeeWorker(s: Sys, f: nat, worker: FeeWorker): Sys
    requires f < |s.feeWorkers|
  {
    s.(feeWorkers := s.feeWorkers[f := worker])
  }

  function Settle(m: map<nat, int>, settlement: Settlement): map<nat, int> {
    Add(Add(m, settlement.tokenIn, SettlementDelta(settlement, settlement.tokenIn)),
        settlement.tokenOut, SettlementDelta(settlement, settlement.tokenOut))
  }

  function NextCreate(s: Sys, settlement: Settlement): Sys
    requires PlanHedge(settlement).Some?
  {
    s.(hedges := s.hedges + [FreshHedge(settlement, s.now)],
       balances := Settle(s.balances, settlement), moved := Settle(s.moved, settlement))
  }

  function NextClaim(s: Sys, w: nat, h: nat, leaseMs: nat, config: Option<Route>, maxOrderAgeMs: nat, fault: Fault): Sys
    requires w < |s.workers| && h < |s.hedges|
  {
    if fault.LostBefore? then s
    else
      var row := ClaimRow(s.hedges[h].row, w, s.now, leaseMs);
      var s' := SetHedge(s, h, WithRow(s.hedges[h], row));
      if fault.LostAfter? then s' else SetWorker(s', w, AfterClaim(JobOf(h, row), config, maxOrderAgeMs))
  }

  function NextStatement(s: Sys, w: nat, fault: Fault): Sys
    requires w < |s.workers| && AwaitsStore(s.workers[w]) && s.workers[w].job.hedge < |s.hedges|
  {
    var worker := s.workers[w];
    var h := worker.job.hedge;
    var g := s.hedges[h];
    var out := Statement(w, worker, g.row, s.now, s.retryDelayMs);
    var s' := SetWorker(s, w, AfterStatement(worker, CancelDue(g.row, w, s.now), Seen(out, fault)));
    if !Committed(out, fault) then s'
    else SetHedge(s', h, WithRow(g, out.value.row)).(balances := Add(s.balances, g.row.intent.token, out.value.delta))
  }

  function NextCall(s: Sys, w: nat, call: Call, pc: Pc): Sys
    requires IsRunning(s, w)
  {
    var worker := s.workers[w];
    var h := worker.job.hedge;
    var g := s.hedges[h];
    SetWorker(SetHedge(s, h, g.(calls := g.calls + [call], venue := if call.SubmitCall? then InFlight else g.venue)),
              w, worker.(pc := pc))
  }

  function NextFeeStatement(s: Sys, f: nat, fault: Fault): Sys
    requires IsFeeRunning(s, f)
  {
    var worker := s.feeWorkers[f];
    var h := worker.job.hedge;
    var out := FeeEffect(f, worker, s.hedges[h], s.now, s.retryDelayMs);
    var s' := SetFeeWorker(s, f, AfterFeeStatement(worker, Seen(out, fault)));
    if Committed(out, fault) then SetHedge(s', h, out.value) else s'
  }

  function NextFeeClaim(s: Sys, f: nat, h: nat, leaseMs: nat, config: Option<Route>, fault: Fault): Sys
    requires f < |s.feeWorkers| && h < |s.hedges|
  {
    if fault.LostBefore? then s
    else
      var row := FeeClaimRow(s.hedges[h].row, f, s.now, leaseMs);
      var s' := SetHedge(s, h, WithRow(s.hedges[h], row));
      if fault.LostAfter? then s' else SetFeeWorker(s', f, AfterFeeClaim(FeeJobOf(h, row), config))
  }

  function Next(s: Sys, step: Step): Sys
    requires Enabled(s, step)
  {
    match step
    case Tick(to) => s.(now := to)
    case Move(token, delta) => s.(balances := Add(s.balances, token, delta), moved := Add(s.moved, token, delta))
    case CreateHedge(settlement) => NextCreate(s, settlement)
    case SetCanonical(h, canonical) => SetHedge(s, h, WithRow(s.hedges[h], s.hedges[h].row.(canonical := canonical)))
    case Claim(w, h, leaseMs, config, maxOrderAgeMs, fault) => NextClaim(s, w, h, leaseMs, config, maxOrderAgeMs, fault)
    case RunStatement(w, fault) => NextStatement(s, w, fault)
    case ValidateReply(w, validated) => SetWorker(s, w, AfterValidate(s.workers[w], validated))
    case QueryReply(w, found) => SetWorker(s, w, AfterQuery(s.workers[w], found))
    case Submit(w) =>
      var worker := s.workers[w];
      NextCall(s, w, SubmitCall(worker.plan.jobRoute, worker.job.intent.side, worker.plan.target), AwaitingSubmit)
    case SubmitReply(w, submitted) => SetWorker(s, w, AfterOrder(s.workers[w], submitted, OrderPendingCode))
    case Cancel(w) => NextCall(s, w, CancelCall, AwaitingCancel)
    case CancelReply(w, canceled) => SetWorker(s, w, AfterOrder(s.workers[w], canceled, CancelPendingCode))
    case Crash(w) => SetWorker(s, w, Idle)
    case Accept(h, id) => SetHedge(s, h, s.hedges[h].(venue := FreshOrder(id)))
    case Reject(h) => SetHedge(s, h, s.hedges[h].(venue := Rejected))
    case Trade(h, quantity, fill) =>
      SetHedge(s, h, s.hedges[h].(venue := Traded(s.hedges[h].venue, quantity, fill, s.hedges[h].calls[0].quantity)))
    case Close(h, code) => SetHedge(s, h, s.hedges[h].(venue := s.hedges[h].venue.(phase := Closed(code))))
    case FeeClaim(f, h, leaseMs, config, fault) => NextFeeClaim(s, f, h, leaseMs, config, fault)
    case FeeQueryReply(f, found) =>
      SetFeeWorker(s, f, AfterFeeQuery(s.feeWorkers[f].job, s.feeWorkers[f].pc.route, found))
    case FeeTradesReply(f, trades) =>
      SetFeeWorker(s, f, AfterTrades(s.feeWorkers[f].job, s.feeWorkers[f].pc.order, trades))
    case FeeStatement(f, fault) => NextFeeStatement(s, f, fault)
    case FeeCrash(f) => SetFeeWorker(s, f, FeeIdle)
  }

  // ---------------------------------------------------------------- runs

  /** No hedges yet, every worker idle, and any initial inventory. */
  predicate Initial(s: Sys) {
    && s.hedges == []
    && s.balances == s.moved
    && (forall w :: 0 <= w < |s.workers| ==> s.workers[w].Idle?)
    && (forall f :: 0 <= f < |s.feeWorkers| ==> s.feeWorkers[f].FeeIdle?)
  }

  predicate Legal(s: Sys, run: seq<Step>)
    decreases |run|
  {
    run == [] || (Enabled(s, run[0]) && Legal(Next(s, run[0]), run[1..]))
  }

  function After(s: Sys, run: seq<Step>): Sys
    requires Legal(s, run)
    decreases |run|
  {
    if run == [] then s else After(Next(s, run[0]), run[1..])
  }
}
