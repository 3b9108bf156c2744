/** What every reachable state keeps about one hedge, its order at the exchange, and the stale snapshot of
    each worker that is between two awaits. */
module HedgeInvariant {
  import opened Arithmetic
  import opened HedgeRoute
  import opened HedgeNetPnl
  import opened HedgeRows
  import opened HedgeWorker
  import opened HedgePlanner
  import opened HedgeFills
  import opened HedgeMachine

  // ---------------------------------------------------------------- one hedge

  /** The route columns follow from the hedge alone, up to the route configuration in force when they were
      first written. */
  predicate RouteFor(h: nat, intent: Intent, j: JobRoute) {
    && j.clientOrderId == h
    && j.route.quoteToken == intent.referenceToken
    && j.route.tokenDecimals == intent.tokenDecimals
    && LimitPrice(intent.side, intent.amount, intent.referenceAmount, j.route) == Some(j.limitPrice)
    && Quantize(intent.amount, j.route.stepSizeRaw).Some?
  }

  function SubmitFor(intent: Intent, j: JobRoute): Call
    requires Quantize(intent.amount, j.route.stepSizeRaw).Some?
  {
    SubmitCall(j, intent.side, Quantize(intent.amount, j.route.stepSizeRaw).value)
  }

  predicate RouteInv(h: nat, r: Row) {
    && (r.route.Some? ==> RouteFor(h, r.intent, r.route.value))
    && (r.submissionAttemptedAt.Some? ==> r.route.Some?)
    && (!r.status.Queued? ==> r.lease.None?)
    && (r.cancelRequestedAt.Some? ==>
          && r.submissionAttemptedAt.Some? && r.route.Some?
          && r.submissionAttemptedAt.value + r.route.value.maxOrderAgeMs <= r.cancelRequestedAt.value)
  }

  /** The only submission is the first call, with the stored route; cancel requests come after it. */
  predicate CallInv(g: Hedge) {
    && (g.calls == [] <==> g.venue.NoOrder?)
    && (g.calls != [] ==>
          && g.row.submissionAttemptedAt.Some?
          && g.row.route.Some?
          && Quantize(g.row.intent.amount, g.row.route.value.route.stepSizeRaw).Some?
          && g.calls[0] == SubmitFor(g.row.intent, g.row.route.value))
    && (forall i :: 0 < i < |g.calls| ==> g.calls[i].CancelCall?)
    && (g.row.cancelRequestedAt.Some? ==> g.calls != [])
    && (|g.calls| > 1 ==> g.row.cancelRequestedAt.Some?)
  }

  /** A pair that the order has had: both amounts have grown since, or neither. */
  predicate NotAhead(e: Evidence, executed: nat, quote: nat) {
    e.filled <= executed && e.quote <= quote && (e.filled < executed <==> e.quote < quote)
  }

  predicate VenueInv(g: Hedge) {
    g.venue.Order? ==>
      && g.calls != [] && g.calls[0].SubmitCall?
      && g.venue.executed <= g.calls[0].quantity
      && (g.venue.phase.FullyExecuted? <==> g.venue.executed == g.calls[0].quantity)
      && (g.venue.executed == 0 <==> g.venue.quote == 0)
      && Evidence(g.venue.executed, g.venue.quote) in g.venue.seen
      && (forall e :: e in g.venue.seen ==> NotAhead(e, g.venue.executed, g.venue.quote))
      && AtOrBetter(g.calls[0].side, g.venue.quote, g.venue.executed, g.calls[0].jobRoute.limitPrice,
                    g.calls[0].jobRoute.route.tokenDecimals)
  }

  /** The order's trades: of its id and side, under increasing ids, summing to what it has executed. */
  predicate TradesInv(v: VenueOrder, intent: Intent) {
    v.Order? ==>
      && SumQuantity(v.trades) == Times(v.executed, Pow10(36 - intent.tokenDecimals))
      && SumQuote(v.trades) == v.quote
      && (forall i :: 0 <= i < |v.trades| ==>
            && v.trades[i].orderId == v.id && v.trades[i].isBuyer == intent.side.Buy?
            && v.trades[i].quantity > 0 && v.trades[i].quoteQuantity > 0)
      && (forall i, j :: 0 <= i < j < |v.trades| ==> v.trades[i].tradeId < v.trades[j].tradeId)
  }

  /** Recorded evidence is a pair that the hedge's own order has had. */
  predicate EvidenceInv(h: nat, g: Hedge) {
    var r := g.row;
    && (r.filled.Some? <==> r.quote.Some?)
    && (r.externalOrderId.Some? <==> r.venueOrderId.Some?)
    && (r.filled.Some? ==>
          && r.externalOrderId.Some?
          && 0 < r.filled.value <= r.intent.amount
          && 0 < r.quote.value)
    && (r.externalOrderId.Some? ==>
          && r.externalOrderId.value == h
          && g.venue.Order?
          && r.venueOrderId.value == g.venue.id
          && (r.filled.Some? ==> Evidence(r.filled.value, r.quote.value) in g.venue.seen))
  }

  /** A terminal row agrees with the exchange: the order was never accepted, or it has ended and what it
      executed is what was recorded. */
  predicate TerminalInv(g: Hedge) {
    var r := g.row;
    && (r.status.Filled? ==>
          && g.venue.Order? && g.venue.phase.FullyExecuted?
          && r.filled == Some(g.venue.executed) && r.quote == Some(g.venue.quote))
    && (r.status.Failed? && r.externalOrderId.Some? ==>
          && g.venue.Order? && g.venue.phase.Closed?
          && Or0(r.filled) == g.venue.executed && Or0(r.quote) == g.venue.quote)
    && (r.status.Failed? && r.externalOrderId.None? ==> r.submissionAttemptedAt.None? || g.venue.Rejected?)
  }

  /** Fills are stored only by a complete reconciliation, and then they sum to the recorded quantities. */
  predicate FeeInv(g: Hedge) {
    var r := g.row;
    && (r.fee.NoFee? <==> r.filled.None?)
    && (!r.fee.FeeComplete? ==> g.fills == [])
    && (r.fee.FeeComplete? ==>
          && !r.status.Queued?
          && SettledPnl(r, g.fills).Some?
          && DistinctTrades(g.fills)
          && (forall i :: 0 <= i < |g.fills| ==> r.venueOrderId == Some(g.fills[i].orderId))
          && SumQuantity(g.fills) == Times(r.filled.value, Pow10(36 - r.intent.tokenDecimals))
          && r.quote == Some(SumQuote(g.fills)))
  }

  /** The PnL column is determined by the rest of the hedge. */
  predicate PnlInv(g: Hedge) {
    var r := g.row;
    if r.route.None? then r.pnl.NoPnl?
    else if r.fee.FeeComplete? then SettledPnl(r, g.fills).Some? && r.pnl == PnlDone(SettledPnl(r, g.fills).value)
    else if r.status.Failed? && r.filled.None? then
      r.pnl.PnlDone? && r.pnl.pnl.Unavailable? && r.pnl.pnl.reason == HedgeNotExecuted && r.pnl.pnl.unvaluedAssets == {}
    else r.pnl.PnlPending?
  }

  predicate HedgeInv(h: nat, g: Hedge) {
    && PlanHedge(g.settlement) == Some(g.row.intent)
    && RouteInv(h, g.row)
    && CallInv(g)
    && VenueInv(g)
    && TradesInv(g.venue, g.row.intent)
    && EvidenceInv(h, g)
    && TerminalInv(g)
    && FeeInv(g)
    && PnlInv(g)
  }

  // ---------------------------------------------------------------- one worker against its hedge

  /** While the worker still holds the lease, nobody has attempted a submission. */
  predicate StillUnattempted(w: nat, r: Row) { Owns(r, w) ==> r.submissionAttemptedAt.None? }

  predicate StillPrepared(w: nat, plan: Plan, r: Row) {
    Owns(r, w) ==> r.submissionAttemptedAt.None? && r.route == Some(plan.jobRoute)
  }

  predicate PlanFor(job: Job, plan: Plan) {
    && RouteFor(job.hedge, job.intent, plan.jobRoute)
    && Quantize(job.intent.amount, plan.jobRoute.route.stepSizeRaw) == Some(plan.target)
  }

  predicate PcOk(w: nat, job: Job, plan: Plan, pc: Pc, g: Hedge) {
    match pc
    case Validating => !job.submissionAttempted && StillUnattempted(w, g.row)
    case Preparing => !job.submissionAttempted && StillUnattempted(w, g.row)
    case Querying => !job.submissionAttempted ==> StillPrepared(w, plan, g.row)
    case Authorizing => !job.submissionAttempted && StillPrepared(w, plan, g.row)
    case Submitting =>
      && !job.submissionAttempted
      && g.row.submissionAttemptedAt.Some?
      && g.row.route == Some(plan.jobRoute)
      && g.calls == []
    case AwaitingSubmit => !job.submissionAttempted && g.calls != [] && g.row.route == Some(plan.jobRoute)
    case Observing(o) => Honest(g.venue, o) && (!job.submissionAttempted ==> !Owns(g.row, w))
    case CheckingCancel(o) => Honest(g.venue, o) && job.submissionAttempted
    case Canceling => job.submissionAttempted && g.row.cancelRequestedAt.Some? && g.calls != []
    case AwaitingCancel => job.submissionAttempted && g.calls != []
    case Applying(o, _) => Honest(g.venue, o)
  }

  predicate WorkerOk(w: nat, worker: Worker, g: Hedge) {
    match worker
    case Idle => true
    case Running(job, plan, pc) =>
      && job.intent == g.row.intent
      && (job.submissionAttempted ==> g.row.submissionAttemptedAt.Some?)
      && PlanFor(job, plan)
      && PcOk(w, job, plan, pc, g)
    case Closing(job, end) =>
      && job.intent == g.row.intent
      && (job.submissionAttempted ==> g.row.submissionAttemptedAt.Some?)
      && (end.Failing? ==>
            !job.submissionAttempted && (StillUnattempted(w, g.row) || g.venue.Rejected?))
  }

  /** The sums that a fee worker has compared before it commits. */
  predicate FeeWorkerOk(worker: FeeWorker, g: Hedge) {
    worker.FeeRunning? ==>
      && worker.job.intent == g.row.intent
      && (worker.pc.FeeTrading? ==>
            worker.pc.order.executed == worker.job.filled && worker.pc.order.quote == worker.job.quote)
      && (worker.pc.FeeCommitting? ==>
            && worker.pc.order.executed == worker.job.filled
            && worker.pc.order.quote == worker.job.quote
            && SumQuantity(worker.pc.fills) == Times(worker.job.filled, Pow10(36 - worker.job.intent.tokenDecimals))
            && SumQuote(worker.pc.fills) == worker.job.quote)
  }

  // ---------------------------------------------------------------- how a hedge may change

  predicate Kept<T(==)>(a: Option<T>, b: Option<T>) { a.Some? ==> b == a }

  predicate VenueAdvances(v: VenueOrder, v': VenueOrder) {
    && (v.Rejected? ==> v' == v)
    && (v.Order? ==>
          && v'.Order? && v'.id == v.id
          && v.executed <= v'.executed && v.quote <= v'.quote && v.seen <= v'.seen && v.trades <= v'.trades
          && (!v.phase.Open? ==> v' == v))
  }

  /** Recorded pairs never decrease, and the quote rises exactly when the fill rises. */
  predicate EvidenceGrows(r: Row, r': Row) {
    && (r.filled.Some? ==> r'.filled.Some?)
    && Or0(r.filled) <= Or0(r'.filled)
    && Or0(r.quote) <= Or0(r'.quote)
    && (Or0(r.filled) < Or0(r'.filled) <==> Or0(r.quote) < Or0(r'.quote))
  }

  predicate Advances(g: Hedge, g': Hedge) {
    var r, r' := g.row, g'.row;
    && g'.settlement == g.settlement
    && r'.intent == r.intent
    && Kept(r.route, r'.route)
    && Kept(r.submissionAttemptedAt, r'.submissionAttemptedAt)
    && Kept(r.cancelRequestedAt, r'.cancelRequestedAt)
    && Kept(r.externalOrderId, r'.externalOrderId)
    && Kept(r.venueOrderId, r'.venueOrderId)
    && EvidenceGrows(r, r')
    && (!r.status.Queued? ==>
          && r'.status == r.status && r'.filled == r.filled && r'.quote == r.quote
          && r'.externalOrderId == r.externalOrderId && r'.submissionAttemptedAt == r.submissionAttemptedAt)
    && (r.fee.FeeComplete? ==> r'.fee == r.fee && r'.pnl == r.pnl && g'.fills == g.fills)
    && g.calls <= g'.calls
    && VenueAdvances(g.venue, g'.venue)
  }

  lemma AdvancesTransitive(a: Hedge, b: Hedge, c: Hedge)
    requires Advances(a, b) && Advances(b, c)
    ensures Advances(a, c)
  {
  }

  /** The change leaves worker w's view intact: it gains no lease, and while it keeps one its columns stay. */
  predicate Undisturbed(w: nat, g: Hedge, g': Hedge) {
    && Advances(g, g')
    && (Owns(g'.row, w) ==>
          && Owns(g.row, w)
          && g'.row.submissionAttemptedAt == g.row.submissionAttemptedAt
          && g'.row.route == g.row.route)
  }

  lemma HonestStays(v: VenueOrder, v': VenueOrder, o: OrderReply)
    requires VenueAdvances(v, v') && Honest(v, o)
    ensures Honest(v', o)
  {
  }

  lemma WorkerOkStable(w: nat, worker: Worker, g: Hedge, g': Hedge)
    requires WorkerOk(w, worker, g)
    requires Undisturbed(w, g, g')
    requires worker.Running? && worker.pc.Submitting? ==> g'.calls == g.calls
    ensures WorkerOk(w, worker, g')
  {
    if worker.Running? {
      match worker.pc
      case Observing(o) => HonestStays(g.venue, g'.venue, o);
      case CheckingCancel(o) => HonestStays(g.venue, g'.venue, o);
      case Applying(o, _) => HonestStays(g.venue, g'.venue, o);
      case _ =>
    }
  }

  // ---------------------------------------------------------------- statements of the job store

  /** What one committed statement of worker w guarantees. */
  predicate Keeps(w: nat, h: nat, g: Hedge, change: Change) {
    var g' := WithRow(g, change.row);
    && HedgeInv(h, g')
    && Advances(g, g')
    && change.delta == Signed(g.row.intent.side, Or0(g'.row.filled) - Or0(g.row.filled))
    && (Owns(g.row, w) || change.row == g.row)
    && (change.row.lease == g.row.lease || change.row.lease.None?)
  }

  lemma PrepareKeeps(w: nat, h: nat, g: Hedge, job: Job, plan: Plan)
    requires HedgeInv(h, g) && job.hedge == h && job.intent == g.row.intent && PlanFor(job, plan)
    requires PrepareRoute(g.row, w, plan.jobRoute).Ok?
    ensures Keeps(w, h, g, PrepareRoute(g.row, w, plan.jobRoute).value)
  {
    hide LimitPrice, Quantize, AtOrBetter, Times, SumQuantity, SumQuote;
  }

  lemma AuthorizeKeeps(w: nat, h: nat, g: Hedge, now: nat)
    requires HedgeInv(h, g)
    requires AuthorizeSubmission(g.row, w, now).Ok?
    ensures Keeps(w, h, g, AuthorizeSubmission(g.row, w, now).value)
  {
    hide LimitPrice, Quantize, AtOrBetter, Times, SumQuantity, SumQuote;
  }

  lemma ObserveKeeps(w: nat, h: nat, g: Hedge, now: nat)
    requires HedgeInv(h, g)
    requires ObserveOrder(g.row, w, now).Ok?
    ensures Keeps(w, h, g, ObserveOrder(g.row, w, now).value)
  {
    hide LimitPrice, Quantize, AtOrBetter, Times, SumQuantity, SumQuote;
  }

  lemma CancelKeeps(w: nat, h: nat, g: Hedge, now: nat)
    requires HedgeInv(h, g) && g.venue.Order?
    requires CancelDue(g.row, w, now)
    ensures Keeps(w, h, g, Change(RequestCancel(g.row, now), 0))
  {
    hide LimitPrice, Quantize, AtOrBetter, Times, SumQuantity, SumQuote;
  }

  lemma ReleaseKeeps(w: nat, h: nat, g: Hedge, now: nat, code: ErrorCode, delay: nat)
    requires HedgeInv(h, g)
    requires ReleaseForRetry(g.row, w, now, code, delay).Ok?
    ensures Keeps(w, h, g, ReleaseForRetry(g.row, w, now, code, delay).value)
  {
    hide LimitPrice, Quantize, AtOrBetter, Times, SumQuantity, SumQuote;
  }

  lemma ProgressKeeps(w: nat, h: nat, g: Hedge, now: nat, o: OrderReply)
    requires HedgeInv(h, g) && Honest(g.venue, o)
    requires RecordProgress(g.row, w, now, h, o.venueOrderId, o.executed, o.quote).Ok?
    ensures Keeps(w, h, g, RecordProgress(g.row, w, now, h, o.venueOrderId, o.executed, o.quote).value)
  {
    hide LimitPrice, Quantize, AtOrBetter, Times, SumQuantity, SumQuote;
  }

  lemma TerminalKeepsOrder(w: nat, h: nat, g: Hedge, now: nat, status: Status, code: Option<ErrorCode>, o: OrderReply)
    requires HedgeInv(h, g) && Honest(g.venue, o)
    requires !status.Queued? && (status.Filled? <==> o.state.OrderFilled?) && (status.Failed? <==> o.state.OrderFailed?)
    requires status.Filled? ==> o.executed > 0
    requires CompleteTerminal(g.row, w, now, status, code, Some(OrderIds(h, o.venueOrderId)), EvidenceOf(o)).Ok?
    ensures var g' := WithRow(g, CompleteTerminal(g.row, w, now, status, code, Some(OrderIds(h, o.venueOrderId)),
                                                  EvidenceOf(o)).value.row);
            RouteInv(h, g'.row) && CallInv(g') && VenueInv(g') && EvidenceInv(h, g') && TerminalInv(g')
  {
    hide LimitPrice, Quantize, AtOrBetter, Times, SumQuantity, SumQuote, FeeInv, PnlInv, RouteFor;
  }

  lemma TerminalKeepsFees(w: nat, h: nat, g: Hedge, now: nat, status: Status, code: Option<ErrorCode>, o: OrderReply)
    requires HedgeInv(h, g) && Honest(g.venue, o)
    requires !status.Queued? && (status.Filled? <==> o.state.OrderFilled?) && (status.Failed? <==> o.state.OrderFailed?)
    requires status.Filled? ==> o.executed > 0
    requires CompleteTerminal(g.row, w, now, status, code, Some(OrderIds(h, o.venueOrderId)), EvidenceOf(o)).Ok?
    ensures var g' := WithRow(g, CompleteTerminal(g.row, w, now, status, code, Some(OrderIds(h, o.venueOrderId)),
                                                  EvidenceOf(o)).value.row);
            FeeInv(g') && PnlInv(g')
  {
    hide LimitPrice, Quantize, AtOrBetter, Times, SumQuantity, SumQuote, RouteInv, CallInv, VenueInv, SettledPnl;
  }

  lemma TerminalAdvances(w: nat, h: nat, g: Hedge, now: nat, status: Status, code: Option<ErrorCode>, o: OrderReply)
    requires HedgeInv(h, g) && Honest(g.venue, o)
    requires !status.Queued? && (status.Filled? <==> o.state.OrderFilled?) && (status.Failed? <==> o.state.OrderFailed?)
    requires status.Filled? ==> o.executed > 0
    requires CompleteTerminal(g.row, w, now, status, code, Some(OrderIds(h, o.venueOrderId)), EvidenceOf(o)).Ok?
    ensures var change := CompleteTerminal(g.row, w, now, status, code, Some(OrderIds(h, o.venueOrderId)),
                                           EvidenceOf(o)).value;
            && Advances(g, WithRow(g, change.row))
            && change.delta == Signed(g.row.intent.side, Or0(change.row.filled) - Or0(g.row.filled))
            && Owns(g.row, w) && change.row.lease.None?
  {
    hide LimitPrice, Quantize, AtOrBetter, Times, SumQuantity, SumQuote, RouteInv, CallInv, VenueInv, TerminalInv, PnlInv,
      PlanHedge, SettledPnl;
  }

  lemma TerminalKeeps(w: nat, h: nat, g: Hedge, now: nat, status: Status, code: Option<ErrorCode>, o: OrderReply)
    requires HedgeInv(h, g) && Honest(g.venue, o)
    requires !status.Queued? && (status.Filled? <==> o.state.OrderFilled?) && (status.Failed? <==> o.state.OrderFailed?)
    requires status.Filled? ==> o.executed > 0
    requires CompleteTerminal(g.row, w, now, status, code, Some(OrderIds(h, o.venueOrderId)), EvidenceOf(o)).Ok?
    ensures Keeps(w, h, g,
                  CompleteTerminal(g.row, w, now, status, code, Some(OrderIds(h, o.venueOrderId)), EvidenceOf(o)).value)
  {
    TerminalKeepsOrder(w, h, g, now, status, code, o);
    TerminalKeepsFees(w, h, g, now, status, code, o);
    TerminalAdvances(w, h, g, now, status, code, o);
    hide CompleteTerminal, RouteInv, CallInv, VenueInv, EvidenceInv, TerminalInv, FeeInv, PnlInv, PlanHedge, EvidenceGrows,
      VenueAdvances;
  }

  lemma FailKeeps(w: nat, h: nat, g: Hedge, now: nat, code: ErrorCode)
    requires HedgeInv(h, g)
    requires StillUnattempted(w, g.row) || g.venue.Rejected?
    requires CompleteTerminal(g.row, w, now, Failed, Some(code), None, None).Ok?
    ensures Keeps(w, h, g, CompleteTerminal(g.row, w, now, Failed, Some(code), None, None).value)
  {
    hide LimitPrice, Quantize, AtOrBetter, Times, SumQuantity, SumQuote;
  }

  /** Whatever statement the worker is waiting for, committing it keeps the hedge's invariant and moves
      inventory by exactly the newly recorded fill. */
  lemma StatementKeeps(w: nat, worker: Worker, h: nat, g: Hedge, now: nat, retryDelayMs: nat)
    requires HedgeInv(h, g) && AwaitsStore(worker) && worker.job.hedge == h && WorkerOk(w, worker, g)
    requires Statement(w, worker, g.row, now, retryDelayMs).Ok?
    ensures Keeps(w, h, g, Statement(w, worker, g.row, now, retryDelayMs).value)
  {
    hide HedgeInv, Keeps, PrepareRoute, AuthorizeSubmission, ObserveOrder, RecordProgress, CompleteTerminal,
      ReleaseForRetry, LimitPrice, Quantize, RetryDelay, ReplyError;
    match worker
    case Closing(job, Failing(code)) => FailKeeps(w, h, g, now, code);
    case Closing(job, Releasing(code, after, _)) =>
      ReleaseKeeps(w, h, g, now, code, RetryDelay(retryDelayMs, job.attemptCount, after));
    case Running(job, plan, pc) =>
      match pc
      case Preparing => PrepareKeeps(w, h, g, job, plan);
      case Authorizing => AuthorizeKeeps(w, h, g, now);
      case Observing(_) => ObserveKeeps(w, h, g, now);
      case CheckingCancel(_) => if CancelDue(g.row, w, now) { CancelKeeps(w, h, g, now); } else { NothingKeeps(w, h, g); }
      case Applying(o, _) =>
        if o.state.OrderFilled? {
          TerminalKeeps(w, h, g, now, Filled, None, o);
        } else if o.state.OrderFailed? {
          TerminalKeeps(w, h, g, now, Failed, Some(o.state.code), o);
        } else if o.executed > 0 {
          ProgressKeeps(w, h, g, now, o);
        } else {
          NothingKeeps(w, h, g);
        }
  }

  lemma NothingKeeps(w: nat, h: nat, g: Hedge)
    requires HedgeInv(h, g)
    ensures Keeps(w, h, g, Change(g.row, 0))
  {
    hide HedgeInv;
    assert WithRow(g, g.row) == g;
  }

  /** The worker's own view after its statement returned with the change committed. */
  lemma StatementReturns(w: nat, worker: Worker, h: nat, g: Hedge, now: nat, retryDelayMs: nat)
    requires HedgeInv(h, g) && AwaitsStore(worker) && worker.job.hedge == h && WorkerOk(w, worker, g)
    requires Statement(w, worker, g.row, now, retryDelayMs).Ok?
    ensures var out := Statement(w, worker, g.row, now, retryDelayMs);
            WorkerOk(w, AfterStatement(worker, CancelDue(g.row, w, now), out), WithRow(g, out.value.row))
  {
    hide ReplyError, LimitPrice, Quantize, RetryDelay, Times, AtOrBetter, SettledPnl, PlanHedge, RouteFor, VenueInv,
      EvidenceInv, TerminalInv, FeeInv, PnlInv;
    if worker.Running? && worker.pc.Authorizing? {
      assert g.calls == [];
    }
  }

  /** The worker's own view after a lost or refused statement; the change may have been committed. */
  lemma StatementFails(w: nat, worker: Worker, h: nat, g: Hedge, now: nat, retryDelayMs: nat, g': Hedge, e: StoreError)
    requires AwaitsStore(worker) && worker.job.hedge == h && WorkerOk(w, worker, g)
    requires Advances(g, g')
    requires e == ConnectionLost || (g' == g && Statement(w, worker, g.row, now, retryDelayMs) == Err(e))
    ensures WorkerOk(w, AfterStatement(worker, CancelDue(g.row, w, now), Err(e)), g')
  {
    if e.NonCanonical? {
      OnlyAuthorizationJudges(w, worker, g.row, now, retryDelayMs);
      AuthorizerMayFail(w, worker, g);
    }
    FailureShape(worker, CancelDue(g.row, w, now), e);
    hide Statement, AfterStatement, CancelDue, PcOk, PlanFor, EvidenceGrows, VenueAdvances;
  }

  /** After a failed statement a worker is done, or lets go, or fails the hedge for a settlement that is not
      canonical. */
  lemma FailureShape(worker: Worker, due: bool, e: StoreError)
    requires AwaitsStore(worker)
    ensures var after := AfterStatement(worker, due, Err(e));
            after.Idle? || (after.Closing? && after.job == worker.job
                            && (after.end.Failing? ==> e.NonCanonical? && !worker.job.submissionAttempted))
  {
    hide ReplyError;
  }

  lemma AuthorizerMayFail(w: nat, worker: Worker, g: Hedge)
    requires WorkerOk(w, worker, g) && worker.Running? && worker.pc.Authorizing?
    ensures StillUnattempted(w, g.row)
  {
  }

  /** Only authorizeSubmission finds a settlement not canonical. */
  lemma OnlyAuthorizationJudges(w: nat, worker: Worker, r: Row, now: nat, retryDelayMs: nat)
    requires AwaitsStore(worker) && Statement(w, worker, r, now, retryDelayMs) == Err(NonCanonical)
    ensures worker.Running? && worker.pc.Authorizing?
  {
    hide ReplyError, RetryDelay, CancelDue;
  }

  // ---------------------------------------------------------------- statements of the fee store

  /** What a fee worker's committed statement guarantees: the job columns stay as they are. */
  predicate FeeKeeps(h: nat, g: Hedge, g': Hedge) {
    && HedgeInv(h, g')
    && Advances(g, g')
    && g'.calls == g.calls
    && g'.row.lease == g.row.lease
    && g'.row.status == g.row.status
    && g'.row.submissionAttemptedAt == g.row.submissionAttemptedAt
    && g'.row.route == g.row.route
    && g'.row.filled == g.row.filled
  }

  lemma ReconcileKeeps(f: nat, worker: FeeWorker, h: nat, g: Hedge, now: nat, retryDelayMs: nat)
    requires HedgeInv(h, g) && FeeWorkerOk(worker, g)
    requires worker.FeeRunning? && worker.pc.FeeCommitting?
    requires FeeEffect(f, worker, g, now, retryDelayMs).Ok?
    ensures FeeKeeps(h, g, FeeEffect(f, worker, g, now, retryDelayMs).value)
  {
    hide LimitPrice, Quantize, AtOrBetter, Times, SumQuantity, SumQuote, NetPnlOf, UpsertFills, LatestExecution;
    var fills := worker.pc.fills;
    var g' := FeeEffect(f, worker, g, now, retryDelayMs).value;
    UpsertIntoEmpty(fills);
    assert g'.fills == fills;
    assert SettledPnl(g'.row, fills) == SettledPnl(g.row, fills);
  }

  lemma FeeEffectKeeps(f: nat, worker: FeeWorker, h: nat, g: Hedge, now: nat, retryDelayMs: nat)
    requires HedgeInv(h, g) && FeeWorkerOk(worker, g)
    requires worker.FeeRunning?
    requires FeeEffect(f, worker, g, now, retryDelayMs).Ok?
    ensures FeeKeeps(h, g, FeeEffect(f, worker, g, now, retryDelayMs).value)
  {
    if worker.pc.FeeCommitting? {
      ReconcileKeeps(f, worker, h, g, now, retryDelayMs);
    } else {
      hide LimitPrice, Quantize, AtOrBetter, Times, SumQuantity, SumQuote, SettledPnl, CompleteReconciliation, RetryDelay;
    }
  }

  lemma FeeClaimKeeps(h: nat, g: Hedge, f: nat, now: nat, leaseMs: nat)
    requires HedgeInv(h, g) && FeeClaimable(g.row, now)
    ensures FeeKeeps(h, g, WithRow(g, FeeClaimRow(g.row, f, now, leaseMs)))
  {
    hide LimitPrice, Quantize, AtOrBetter, Times, SumQuantity, SumQuote;
  }

  // ---------------------------------------------------------------- the other steps on one hedge

  lemma ClaimKeeps(h: nat, g: Hedge, w: nat, now: nat, leaseMs: nat)
    requires HedgeInv(h, g) && Claimable(g.row, now)
    ensures var g' := WithRow(g, ClaimRow(g.row, w, now, leaseMs));
            && HedgeInv(h, g') && Advances(g, g') && g'.calls == g.calls && g'.row.filled == g.row.filled
            && (forall w' :: w' != w ==> !Owns(g'.row, w'))
  {
    hide LimitPrice, Quantize, AtOrBetter, Times, SumQuantity, SumQuote;
  }

  lemma CanonicalKeeps(h: nat, g: Hedge, canonical: bool)
    requires HedgeInv(h, g)
    ensures FeeKeeps(h, g, WithRow(g, g.row.(canonical := canonical)))
  {
    hide LimitPrice, Quantize, AtOrBetter, Times, SumQuantity, SumQuote;
  }

  lemma SubmitKeeps(h: nat, g: Hedge, job: Job, plan: Plan)
    requires HedgeInv(h, g) && job.hedge == h && job.intent == g.row.intent && PlanFor(job, plan)
    requires g.row.submissionAttemptedAt.Some? && g.row.route == Some(plan.jobRoute) && g.calls == []
    ensures var g' := g.(calls := g.calls + [SubmitCall(plan.jobRoute, job.intent.side, plan.target)], venue := InFlight);
            HedgeInv(h, g') && Advances(g, g')
  {
    hide LimitPrice, Quantize, AtOrBetter, Times, SumQuantity, SumQuote;
  }

  lemma CancelCallKeeps(h: nat, g: Hedge)
    requires HedgeInv(h, g) && g.calls != [] && g.row.cancelRequestedAt.Some?
    ensures var g' := g.(calls := g.calls + [CancelCall]);
            HedgeInv(h, g') && Advances(g, g')
  {
    hide LimitPrice, Quantize, AtOrBetter, Times, SumQuantity, SumQuote;
  }

  /** A venue step leaves the row alone and only moves the order forward. */
  lemma VenueKeeps(h: nat, g: Hedge, venue: VenueOrder)
    requires HedgeInv(h, g)
    requires VenueInv(g.(venue := venue)) && TradesInv(venue, g.row.intent) && VenueAdvances(g.venue, venue)
    requires !g.venue.NoOrder? && !venue.NoOrder?
    ensures FeeKeeps(h, g, g.(venue := venue))
  {
    hide LimitPrice, Quantize, AtOrBetter, Times, SumQuantity, SumQuote;
  }

  lemma TradeKeepsVenue(g: Hedge, quantity: nat, fill: FillFields)
    requires VenueInv(g) && TradeAllowed(g, quantity, fill)
    ensures VenueInv(g.(venue := Traded(g.venue, quantity, fill, g.calls[0].quantity)))
  {
    var limit, decimals := g.calls[0].jobRoute.limitPrice, g.calls[0].jobRoute.route.tokenDecimals;
    TimesDistributes(limit, g.venue.executed, quantity);
    TimesDistributesLeft(g.venue.quote, fill.quoteQuantity, Pow10(decimals));
    hide Times, Pow10;
  }

  /** One more trade keeps the sums: the executed amount and the trades grow alike. */
  lemma TradeKeepsTrades(h: nat, g: Hedge, quantity: nat, fill: FillFields)
    requires HedgeInv(h, g) && TradeAllowed(g, quantity, fill)
    ensures TradesInv(Traded(g.venue, quantity, fill, g.calls[0].quantity), g.row.intent)
  {
    var v := g.venue;
    var unit := Pow10(36 - g.row.intent.tokenDecimals);
    TradeNames(h, g);
    TimesDistributesLeft(v.executed, quantity, unit);
    TimesPositive(quantity, unit);
    hide Times, Pow10, AtOrBetter, HedgeInv;
    SumsAppend(v.trades, fill);
    hide SumQuantity, SumQuote;
  }

  lemma SumsAppend(trades: seq<FillFields>, fill: FillFields)
    ensures SumQuantity(trades + [fill]) == SumQuantity(trades) + fill.quantity
    ensures SumQuote(trades + [fill]) == SumQuote(trades) + fill.quoteQuantity
  {
    assert (trades + [fill])[..|trades|] == trades;
  }

  lemma TimesPositive(a: nat, b: nat)
    requires a > 0 && b > 0
    ensures Times(a, b) > 0
  {
  }

  lemma TradeNames(h: nat, g: Hedge)
    requires HedgeInv(h, g) && g.venue.Order?
    ensures g.calls != [] && g.calls[0].SubmitCall? && g.calls[0].side == g.row.intent.side
    ensures g.calls[0].jobRoute.route.tokenDecimals == g.row.intent.tokenDecimals
    ensures TradesInv(g.venue, g.row.intent)
  {
    hide VenueInv, TradesInv, EvidenceInv, TerminalInv, FeeInv, PnlInv, PlanHedge, LimitPrice, Quantize;
  }

  lemma TimesDistributesLeft(a: nat, b: nat, c: nat)
    ensures Times(a + b, c) == Times(a, c) + Times(b, c)
  {
  }

  lemma FreshKeeps(h: nat, settlement: Settlement, now: nat)
    requires PlanHedge(settlement).Some?
    ensures HedgeInv(h, FreshHedge(settlement, now))
  {
  }

  // ---------------------------------------------------------------- the other steps of one worker

  lemma ClaimStarts(w: nat, h: nat, g: Hedge, config: Option<Route>, maxOrderAgeMs: nat)
    requires HedgeInv(h, g)
    requires config.Some? ==> config.value.tokenDecimals == g.row.intent.tokenDecimals
    ensures WorkerOk(w, AfterClaim(JobOf(h, g.row), config, maxOrderAgeMs), g)
  {
    hide LimitPrice, Quantize, AtOrBetter, Times, SumQuantity, SumQuote;
  }

  lemma ValidateReturns(w: nat, worker: Worker, g: Hedge, reply: Reply<()>)
    requires worker.Running? && worker.pc.Validating? && WorkerOk(w, worker, g)
    ensures WorkerOk(w, AfterValidate(worker, reply), g)
  {
    hide RouteFor, Quantize;
  }

  lemma QueryReturns(w: nat, worker: Worker, h: nat, g: Hedge, reply: Reply<Option<OrderReply>>)
    requires HedgeInv(h, g) && worker.Running? && worker.pc.Querying? && WorkerOk(w, worker, g)
    requires reply.Answer? && reply.value.Some? ==> Honest(g.venue, reply.value.value)
    ensures WorkerOk(w, AfterQuery(worker, reply), g)
  {
    hide RouteFor, Quantize, LimitPrice, AtOrBetter;
  }

  lemma SubmitReturns(w: nat, worker: Worker, g: Hedge, reply: Reply<OrderReply>, code: ErrorCode)
    requires worker.Running? && (worker.pc.AwaitingSubmit? || worker.pc.AwaitingCancel?) && WorkerOk(w, worker, g)
    requires reply.Answer? ==> Honest(g.venue, reply.value)
    requires worker.pc.AwaitingSubmit? && reply.Refusal? && !reply.error.retryable ==> g.venue.Rejected?
    ensures WorkerOk(w, AfterOrder(worker, reply, code), g)
  {
    hide RouteFor, Quantize;
  }

  lemma FeeQueryReturns(worker: FeeWorker, g: Hedge, reply: Reply<Option<OrderReply>>)
    requires worker.FeeRunning? && worker.pc.FeeQuerying? && FeeWorkerOk(worker, g)
    ensures FeeWorkerOk(AfterFeeQuery(worker.job, worker.pc.route, reply), g)
  {
    hide Times;
  }

  lemma FeeTradesReturn(worker: FeeWorker, g: Hedge, reply: Reply<seq<Fill>>)
    requires worker.FeeRunning? && worker.pc.FeeTrading? && FeeWorkerOk(worker, g)
    ensures FeeWorkerOk(AfterTrades(worker.job, worker.pc.order, reply), g)
  {
    hide Times;
  }
}
