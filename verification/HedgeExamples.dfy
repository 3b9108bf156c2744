/** Reachable hedges that cannot end while the route table stays as it is, and finished ones whose fees cannot
    complete although the exchange tells the truth. */
module HedgeExamples {
  import opened Arithmetic
  import opened HedgeRoute
  import opened HedgeRows
  import opened HedgeWorker
  import opened HedgePlanner
  import opened HedgeMachine
  import opened HedgeInvariant
  import opened HedgeSafety
  import opened HedgeStuck
  import opened HedgeRegimes
  import opened HedgeProgress
  import opened HedgeEndings
  import opened HedgeEndable
  import opened HedgeFeeProgress
  import opened HedgeReachability
  import opened BinanceTrades

  // ---------------------------------------------------------------- a sell priced below one tick

  /** The route fits the hedge but for its price tick: the limit of the sell would round to nothing. */
  predicate BelowTick(intent: Intent, route: Route) {
    && intent.side.Sell?
    && route.quoteToken == intent.referenceToken && route.tokenDecimals == intent.tokenDecimals
    && Quantize(intent.amount, route.stepSizeRaw).Some?
    && LimitPrice(intent.side, intent.amount, intent.referenceAmount, route).None?
  }

  /** One base unit sold for the 10^18th part of a quote token, on a route with a tick of twice that. */
  lemma BelowTickExists() returns (settlement: Settlement, route: Route)
    ensures PlanHedge(settlement).Some? && BelowTick(PlanHedge(settlement).value, route)
  {
    settlement := SettlementFields(1, 2, 1, 1, false, true, 0, 18);
    route := RouteFields("ABCUSDT", "ABC", "USDT", 2, 0, 18, 1, 2, 0);
    var n, d := AdjustedNumerator(Sell, 1, route), AdjustedDenominator(1, route);
    assert n == d by { hide Pow10; assert Pow10(0) == 1; }
    RoundToTickZero(Sell, n, d, 2);
    assert !Beyond(Sell, n, d, 2);
  }

  /** Such a hedge is neither orphaned nor stranded, and never ends while claims read that route: every claim
      fails with a retryable error. */
  lemma BelowTickNeverEnds(settlement: Settlement, route: Route, maxOrderAgeMs: nat, rulesKept: bool)
    requires PlanHedge(settlement).Some? && BelowTick(PlanHedge(settlement).value, route)
    ensures exists run: seq<Step> ::
              && Legal(ONE_WORKER, run)
              && var t := After(ONE_WORKER, run);
                 && |t.hedges| == 1 && t.hedges[0].row.status.Queued? && !Orphaned(t, 0) && !Stranded(t, 0)
                 && !Can(t, Ends(0), RouteKept(0, Setup(Some(route), maxOrderAgeMs, rulesKept)))
  {
    var create := CreateHedge(settlement);
    var t := Next(ONE_WORKER, create);
    var setup := Setup(Some(route), maxOrderAgeMs, rulesKept);
    var intent := PlanHedge(settlement).value;
    assert t.hedges == [FreshHedge(settlement, 0)] && t.workers == [Idle];
    NothingMoves(t, intent, setup);
    assert Reaches(ONE_WORKER, ONE_WORKER, []);
    hide PlanHedge, Can, CanStillEnd, BelowTick, Next, Enabled;
    Extend(ONE_WORKER, ONE_WORKER, [], create);
    CanEndWithRouteKept(ONE_WORKER, [] + [create], 0, setup);
  }

  lemma NothingMoves(t: Sys, intent: Intent, setup: Setup)
    requires |t.hedges| == 1 && t.workers == [Idle] && t.hedges[0].row == FreshRow(intent, 0)
    requires setup.config.Some? && BelowTick(intent, setup.config.value)
    ensures !CanStillEnd(t, 0, setup) && !Orphaned(t, 0) && !Stranded(t, 0)
  {
    hide OrderLeads, LimitPrice, Quantize;
  }

  // ---------------------------------------------------------------- prepared under another configuration

  /** A hedge that was prepared under one configuration, whose worker then crashed, never ends while claims read
      another one that plans it otherwise and the exchange's rules admit the order: prepareRoute finds a lease
      conflict at every attempt. */
  lemma RepricedNeverEnds(settlement: Settlement, route: Route, other: Setup)
    requires PlanHedge(settlement).Some? && Usable(PlanHedge(settlement).value, route)
    requires var intent := PlanHedge(settlement).value;
             && other.rulesKept && other.config.Some? && other.config.value.tokenDecimals == intent.tokenDecimals
             && PlanNow(0, FreshRow(intent, 0), other).Answer?
             && PlanNow(0, FreshRow(intent, 0), other).value.jobRoute != PlanOf(intent, route).jobRoute
    ensures exists run: seq<Step> ::
              && Legal(ONE_WORKER, run)
              && var t := After(ONE_WORKER, run);
                 && |t.hedges| == 1 && t.hedges[0].row.status.Queued? && !Orphaned(t, 0) && !Stranded(t, 0)
                 && !Can(t, Ends(0), RouteKept(0, other))
  {
    var run, s := ReachPrepared(settlement, route);
    var intent := PlanHedge(settlement).value;
    var t := Next(s, Crash(0));
    assert Enabled(s, Crash(0)) && t.workers == [Idle] && t.hedges == s.hedges;
    PlanByIntent(0, FreshRow(intent, 0), t.hedges[0].row, other);
    NothingFits(t, other);
    hide PlanHedge, Can, CanStillEnd, Next, Enabled, Usable, PlanOf, PlanNow;
    Extend(ONE_WORKER, s, run, Crash(0));
    CanEndWithRouteKept(ONE_WORKER, run + [Crash(0)], 0, other);
  }

  /** It is enough that the configured order age changed. */
  lemma AgeChangedNeverEnds(settlement: Settlement, route: Route, maxOrderAgeMs: nat)
    requires PlanHedge(settlement).Some? && Usable(PlanHedge(settlement).value, route) && maxOrderAgeMs != 1_000
    ensures exists run: seq<Step> ::
              && Legal(ONE_WORKER, run)
              && var t := After(ONE_WORKER, run);
                 && |t.hedges| == 1 && t.hedges[0].row.status.Queued? && !Orphaned(t, 0) && !Stranded(t, 0)
                 && !Can(t, Ends(0), RouteKept(0, Setup(Some(route), maxOrderAgeMs, true)))
  {
    var intent := PlanHedge(settlement).value;
    assert PlanNow(0, FreshRow(intent, 0), Setup(Some(route), maxOrderAgeMs, true)).Answer?
           && PlanNow(0, FreshRow(intent, 0), Setup(Some(route), maxOrderAgeMs, true)).value.jobRoute.maxOrderAgeMs
              == maxOrderAgeMs by { hide PlanHedge, LimitPrice, Quantize; }
    assert PlanOf(intent, route).jobRoute.maxOrderAgeMs == 1_000 by { hide PlanHedge, LimitPrice, Quantize; }
    hide PlanHedge, Usable, PlanOf, PlanNow, Legal, After, Can, Orphaned, Stranded;
    RepricedNeverEnds(settlement, route, Setup(Some(route), maxOrderAgeMs, true));
  }

  lemma NothingFits(t: Sys, setup: Setup)
    requires |t.hedges| == 1 && t.workers == [Idle] && t.hedges[0].row.status.Queued?
    requires t.hedges[0].row.submissionAttemptedAt.None? && t.hedges[0].row.route.Some? && setup.rulesKept
    requires PlanNow(0, t.hedges[0].row, setup).Answer?
    requires PlanNow(0, t.hedges[0].row, setup).value.jobRoute != t.hedges[0].row.route.value
    ensures !CanStillEnd(t, 0, setup) && !Orphaned(t, 0) && !Stranded(t, 0)
  {
    hide OrderLeads, PlanNow;
  }

  // ---------------------------------------------------------------- more trades than pages

  /** The order of a hedge, sold in k trades of one unit each. */
  ghost predicate TradedTo(s: Sys, t: Sys, k: nat) {
    && Inv(t) && |s.hedges| == 1 && |t.hedges| == 1 && t.workers == s.workers && t.feeWorkers == s.feeWorkers
    && t.hedges[0].row == s.hedges[0].row && t.hedges[0].calls == s.hedges[0].calls
    && t.hedges[0].calls != [] && t.hedges[0].calls[0].SubmitCall? && t.hedges[0].calls[0].side.Sell?
    && t.hedges[0].venue.Order? && t.hedges[0].venue.executed == k && |t.hedges[0].venue.trades| == k
    && t.hedges[0].venue.phase == if k == t.hedges[0].calls[0].quantity then FullyExecuted else Open
  }

  lemma {:induction false} TradesReach(s: Sys, run0: seq<Step>, k: nat) returns (run: seq<Step>, t: Sys)
    requires Reaches(ONE_WORKER, s, run0) && NoFeeSteps(run0) && TradedTo(s, s, 0)
    requires k <= s.hedges[0].calls[0].quantity
    ensures Reaches(ONE_WORKER, t, run) && NoFeeSteps(run) && TradedTo(s, t, k)
    decreases k
  {
    if k == 0 {
      run, t := run0, s;
    } else {
      var run', u := TradesReach(s, run0, k - 1);
      var step := Trade(0, 1, NextFill(u.hedges[0], 1));
      InvHedge(u, 0);
      hide Reaches, HedgeInv, Inv, Next, Enabled, NextFill, TradeAllowed;
      NextFillAllowed(0, u.hedges[0], 1);
      HedgeProgress.TradeStep(u, 0, 1);
      KeepsInv(u, step);
      Extend(ONE_WORKER, u, run', step);
      run, t := run' + [step], Next(u, step);
    }
  }

  lemma KeepsInv(s: Sys, step: Step)
    requires Inv(s) && Enabled(s, step)
    ensures Inv(Next(s, step))
  {
    InvNext(s, step);
  }

  /** A sell of which one unit traded before the order was closed, and whose worker crashed, never ends while
      claims read a route with a larger step: every final report is refused. */
  lemma OffStepNeverEnds(settlement: Settlement, route: Route, other: Setup)
    requires PlanHedge(settlement).Some? && PlanHedge(settlement).value.side.Sell?
    requires Usable(PlanHedge(settlement).value, route) && PlanOf(PlanHedge(settlement).value, route).target > 1
    requires other.config.Some? && other.config.value.stepSizeRaw > 1
    requires other.config.value.tokenDecimals == PlanHedge(settlement).value.tokenDecimals
    ensures exists run: seq<Step> ::
              && Legal(ONE_WORKER, run)
              && var t := After(ONE_WORKER, run);
                 && |t.hedges| == 1 && t.hedges[0].row.status.Queued? && !Orphaned(t, 0) && !Stranded(t, 0)
                 && !Can(t, Ends(0), RouteKept(0, other))
  {
    var run, t := OneUnitReach(settlement, route);
    NothingReads(t, other);
    hide PlanHedge, Can, CanStillEnd, Usable, PlanOf, Legal, After, Orphaned, Stranded;
    CanEndWithRouteKept(ONE_WORKER, run, 0, other);
  }

  lemma OneUnitReach(settlement: Settlement, route: Route) returns (run: seq<Step>, t: Sys)
    requires PlanHedge(settlement).Some? && PlanHedge(settlement).value.side.Sell?
    requires Usable(PlanHedge(settlement).value, route) && PlanOf(PlanHedge(settlement).value, route).target > 1
    ensures Reaches(ONE_WORKER, t, run)
    ensures |t.hedges| == 1 && t.workers == [Idle] && t.hedges[0].row.submissionAttemptedAt.Some?
    ensures t.hedges[0].row.status.Queued? && t.hedges[0].row.intent == PlanHedge(settlement).value
    ensures HasEnded(t.hedges[0].venue) && t.hedges[0].venue.executed == 1 && t.hedges[0].calls != []
  {
    var run0, s0 := ReachAccepted(settlement, route);
    var run1, s1 := TradesReach(s0, run0, 1);
    CloseStep(s1, 0);
    var close := Close(0, WorkerInternal);
    CrashStep(Next(s1, close));
    hide PlanHedge, Next, Enabled, Usable, PlanOf, Inv;
    Extend(ONE_WORKER, s1, run1, close);
    Extend(ONE_WORKER, Next(s1, close), run1 + [close], Crash(0));
    run, t := run1 + [close] + [Crash(0)], Next(Next(s1, close), Crash(0));
  }

  lemma CrashStep(s: Sys)
    requires |s.workers| == 1
    ensures Enabled(s, Crash(0)) && Next(s, Crash(0)).hedges == s.hedges && Next(s, Crash(0)).workers == [Idle]
  {
  }

  lemma NothingReads(t: Sys, setup: Setup)
    requires |t.hedges| == 1 && t.workers == [Idle] && t.hedges[0].row.submissionAttemptedAt.Some?
    requires HasEnded(t.hedges[0].venue) && t.hedges[0].venue.executed == 1 && t.hedges[0].calls != []
    requires setup.config.Some? && setup.config.value.stepSizeRaw > 1
    ensures !CanStillEnd(t, 0, setup) && !Orphaned(t, 0) && !Stranded(t, 0)
  {
    hide LimitPrice, Quantize;
  }

  /** For every planned sell of at least 100000 venue units, on every usable route, a run in which nobody lies
      fills the hedge in single units; its fees then never complete, whatever route the fee claims read,
      because queryOrderTrades runs out of pages every time. */
  lemma TooManyTradesNeverComplete(settlement: Settlement, route: Route)
    requires PlanHedge(settlement).Some? && PlanHedge(settlement).value.side.Sell?
    requires Usable(PlanHedge(settlement).value, route)
    requires PlanOf(PlanHedge(settlement).value, route).target >= TRADE_PAGE_SIZE * MAX_TRADE_PAGES
    ensures exists run: seq<Step> ::
              && Legal(ONE_WORKER, run) && Obeys(ONE_WORKER, run, FeesTruthful(0))
              && var t := After(ONE_WORKER, run);
                 && |t.hedges| == 1 && t.hedges[0].row.status.Filled? && t.hedges[0].row.filled.Some?
                 && forall config: Option<Route> ::
                      config.None? || config.value.tokenDecimals == t.hedges[0].row.intent.tokenDecimals ==>
                        !Can(t, CompletesFees(0), FeesKept(0, config))
  {
    var intent := PlanHedge(settlement).value;
    var plan := PlanOf(intent, route);
    var run0, s0 := ReachAccepted(settlement, route);
    var run1, s1 := TradesReach(s0, run0, plan.target);
    var run, t := ReportFilled(run1, s1, plan);
    hide PlanHedge, Usable, PlanOf, Legal, After, Obeys, Can, FeesCanComplete;
    NobodyLies(ONE_WORKER, run);
    forall config: Option<Route> | config.None? || config.value.tokenDecimals == t.hedges[0].row.intent.tokenDecimals
      ensures !Can(t, CompletesFees(0), FeesKept(0, config))
    {
      FeesCompleteExactly(ONE_WORKER, run, 0, config);
      TooManyToList(t, config);
    }
  }

  /** A sell of 100000 units at 10^-18 each, on a route with the finest step and tick. */
  lemma ManyTradesExist() returns (settlement: Settlement, route: Route)
    ensures PlanHedge(settlement).Some? && PlanHedge(settlement).value.side.Sell?
    ensures Usable(PlanHedge(settlement).value, route)
    ensures PlanOf(PlanHedge(settlement).value, route).target >= TRADE_PAGE_SIZE * MAX_TRADE_PAGES
  {
    settlement := SettlementFields(1, 2, 100_000, 100_000, false, true, 0, 18);
    route := RouteFields("ABCUSDT", "ABC", "USDT", 2, 0, 18, 1, 1, 0);
    var n, d := AdjustedNumerator(Sell, 100_000, route), AdjustedDenominator(100_000, route);
    assert n == d by { hide Pow10; assert Pow10(0) == 1; }
    RoundToTickZero(Sell, n, d, 1);
    assert Beyond(Sell, n, d, 1);
  }

  lemma TooManyToList(t: Sys, config: Option<Route>)
    requires |t.hedges| == 1 && !t.hedges[0].row.fee.FeeComplete? && t.hedges[0].venue.Order?
    requires |t.hedges[0].venue.trades| >= TRADE_PAGE_SIZE * MAX_TRADE_PAGES
    ensures !FeesCanComplete(t, 0, config)
  {
    hide SomeFeeHolder, FeeClaimCan, ValidTrades, Times, Pow10;
  }

  lemma {:induction false} NobodyLies(s: Sys, run: seq<Step>)
    requires Legal(s, run) && NoFeeSteps(run)
    ensures Obeys(s, run, FeesTruthful(0))
    decreases |run|
  {
    if run != [] {
      assert NoFeeSteps(run[1..]);
      assert !IsFeeStep(run[0]);
      hide Enabled, Next;
      NobodyLies(Next(s, run[0]), run[1..]);
    }
  }

  lemma ReachAccepted(settlement: Settlement, route: Route) returns (run: seq<Step>, t: Sys)
    requires PlanHedge(settlement).Some? && PlanHedge(settlement).value.side.Sell?
    requires Usable(PlanHedge(settlement).value, route)
    ensures Reaches(ONE_WORKER, t, run) && NoFeeSteps(run) && TradedTo(t, t, 0)
    ensures var intent := PlanHedge(settlement).value;
            var plan := PlanOf(intent, route);
            && t.hedges[0].calls[0].quantity == plan.target
            && t.workers == [Running(JobAt0(intent), plan, AwaitingSubmit)] && t.feeWorkers == [FeeIdle]
            && t.hedges[0].row == PreparedRow(intent, plan)
            && plan.target % route.stepSizeRaw == 0 && plan.jobRoute.route == route && plan.target > 0
  {
    var s0;
    run, s0 := ReachSubmitting(settlement, route);
    var intent := PlanHedge(settlement).value;
    var plan := PlanOf(intent, route);
    PlanFacts(intent, route);
    var s1 := HedgeReachability.SubmitStep(s0, settlement, intent, plan);
    t := HedgeReachability.AcceptStep(s1, settlement, intent, plan);
    hide MakePlan, PlanHedge, Legal, After, Usable, PlanOf, Enabled, Next, PreparedRow, Inv;
    Extend(ONE_WORKER, s0, run, Submit(0));
    Extend(ONE_WORKER, s1, run + [Submit(0)], Accept(0, 7));
    run := run + [Submit(0)] + [Accept(0, 7)];
    InitialInv(ONE_WORKER);
    RunInv(ONE_WORKER, run);
  }

  /** The worker hears that the order is filled and records it. */
  lemma ReportFilled(run1: seq<Step>, s1: Sys, plan: Plan) returns (run: seq<Step>, t: Sys)
    requires Reaches(ONE_WORKER, s1, run1) && NoFeeSteps(run1) && TradedTo(s1, s1, plan.target) && plan.target > 0
    requires s1.hedges[0].calls[0].quantity == plan.target && plan.target % plan.jobRoute.route.stepSizeRaw == 0
    requires |s1.workers| == 1 && s1.workers[0].Running? && s1.workers[0].plan == plan && s1.workers[0].job.hedge == 0
    requires s1.workers[0].pc.AwaitingSubmit? && Owns(s1.hedges[0].row, 0) && s1.hedges[0].row.fee.NoFee?
    ensures Reaches(ONE_WORKER, t, run) && NoFeeSteps(run)
    ensures |t.hedges| == 1 && t.hedges[0].row.status.Filled? && t.hedges[0].row.filled.Some?
    ensures !t.hedges[0].row.fee.FeeComplete? && t.hedges[0].venue == s1.hedges[0].venue && t.feeWorkers == s1.feeWorkers
  {
    InvHedge(s1, 0);
    ReadableMeans(0, s1.hedges[0], plan);
    var reply := FinalReply(s1, 0, 0);
    ReplyStep0(s1);
    var s2 := Next(s1, reply);
    var record := RunStatement(0, NoFault);
    KeepsInv(s1, reply);
    InvHedge(s2, 0);
    RecordFilled(s2);
    hide Inv, HedgeInv, Next, Enabled, ReplyError;
    Extend(ONE_WORKER, s1, run1, reply);
    Extend(ONE_WORKER, s2, run1 + [reply], record);
    run, t := run1 + [reply] + [record], Next(s2, record);
  }

  lemma ReplyStep0(s: Sys)
    requires Reads(s, 0, 0) && s.workers[0].pc.AwaitingSubmit?
    ensures Enabled(s, FinalReply(s, 0, 0)) && !IsFeeStep(FinalReply(s, 0, 0))
    ensures var t := Next(s, FinalReply(s, 0, 0));
            && t.hedges == s.hedges && t.feeWorkers == s.feeWorkers
            && |t.workers| == |s.workers|
            && t.workers[0] == s.workers[0].(pc := Applying(FinalReport(s.hedges[0].venue), OrderPendingCode))
  {
    hide ReplyError;
  }

  lemma RecordFilled(s: Sys)
    requires |s.hedges| == 1 && |s.workers| == 1 && AtWork(s, 0, 0) && s.workers[0].Running? && s.workers[0].pc.Applying?
    requires HedgeInv(0, s.hedges[0]) && HasEnded(s.hedges[0].venue) && s.hedges[0].venue.phase.FullyExecuted?
    requires s.hedges[0].venue.executed > 0 && s.hedges[0].row.fee.NoFee?
    requires s.workers[0].pc.order == FinalReport(s.hedges[0].venue)
    requires ReplyError(s.workers[0].pc.order, s.workers[0].plan).None? && s.workers[0].plan.jobRoute.clientOrderId == 0
    ensures var step := RunStatement(0, NoFault);
            && Enabled(s, step)
            && var t := Next(s, step);
               && |t.hedges| == 1 && t.hedges[0].row.status.Filled? && t.hedges[0].row.filled.Some?
               && !t.hedges[0].row.fee.FeeComplete? && t.hedges[0].venue == s.hedges[0].venue && t.feeWorkers == s.feeWorkers
  {
    FinalAccepted(0, s.hedges[0], 0, s.now, Filled, None);
    FilledRowNow(s.hedges[0].row, s.now, FinalReport(s.hedges[0].venue));
    RecordStatement(s.workers[0], s.hedges[0].row, s.now, s.retryDelayMs);
    hide HedgeInv, Statement, AfterStatement, ReplyError, CompleteTerminal, CancelDue, Add;
  }

  lemma RecordStatement(worker: Worker, r: Row, now: nat, retryDelayMs: nat)
    requires worker.Running? && worker.pc.Applying? && worker.pc.order.state.OrderFilled?
    requires ReplyError(worker.pc.order, worker.plan).None? && worker.plan.jobRoute.clientOrderId == 0
    ensures Statement(0, worker, r, now, retryDelayMs)
            == CompleteTerminal(r, 0, now, Filled, None, Some(OrderIds(0, worker.pc.order.venueOrderId)),
                                EvidenceOf(worker.pc.order))
  {
    hide ReplyError, CompleteTerminal;
  }

  lemma FilledRowNow(r: Row, now: nat, o: OrderReply)
    requires CompleteTerminal(r, 0, now, Filled, None, Some(OrderIds(0, o.venueOrderId)), EvidenceOf(o)).Ok?
    requires o.executed > 0
    ensures var row := CompleteTerminal(r, 0, now, Filled, None, Some(OrderIds(0, o.venueOrderId)), EvidenceOf(o)).value.row;
            row.status.Filled? && row.filled.Some? && !row.fee.FeeComplete?
  {
    hide CheckFill, CheckEvidence;
  }
}
