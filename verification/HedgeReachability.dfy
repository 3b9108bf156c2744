/** The protocol can do its work: from any planned settlement and any usable route there is a run that fills
    the hedge, and one more stretch that completes its fee reconciliation. */
module HedgeReachability {
  import opened Arithmetic
  import opened HedgeRoute
  import opened HedgeNetPnl
  import opened HedgeRows
  import opened HedgeFills
  import opened HedgeWorker
  import opened HedgePlanner
  import opened HedgeMachine
  import opened HedgeSafety
  import opened HedgeStuck

  predicate Reaches(s: Sys, t: Sys, run: seq<Step>) { Legal(s, run) && After(s, run) == t }

  lemma {:induction false} Extend(s: Sys, t: Sys, run: seq<Step>, step: Step)
    requires Reaches(s, t, run) && Enabled(t, step)
    ensures Reaches(s, Next(t, step), run + [step])
    decreases |run|
  {
    hide Enabled, Next;
    if run == [] {
      assert [step][1..] == [];
      assert run + [step] == [step];
      assert Legal(s, [step]) && After(s, [step]) == Next(s, step);
    } else {
      Extend(Next(s, run[0]), t, run[1..], step);
      assert (run + [step])[1..] == run[1..] + [step];
    }
  }

  const ONE_WORKER: Sys := Sys(0, 1, [], [Idle], [FeeIdle], map[], map[])

  /** The route can carry the hedge: it fits the reference token and decimals, and yields a plan. */
  predicate Usable(intent: Intent, route: Route) {
    route.tokenDecimals == intent.tokenDecimals
    && MakePlan(JobOf(0, ClaimRow(FreshRow(intent, 0), 0, 0, 0)), Some(route), 1_000).Answer?
  }

  function PlanOf(intent: Intent, route: Route): Plan
    requires Usable(intent, route)
  {
    MakePlan(JobOf(0, ClaimRow(FreshRow(intent, 0), 0, 0, 0)), Some(route), 1_000).value
  }

  /** A single trade of the whole target, at or better than the limit. */
  predicate WholeTrade(fill: Fill, intent: Intent, plan: Plan) {
    && fill.orderId == 7 && fill.isBuyer == intent.side.Buy? && fill.commission == 0
    && fill.quantity == Times(plan.target, Pow10(36 - intent.tokenDecimals))
    && PriceOk(intent.side, fill.price, plan.jobRoute.limitPrice)
    && AtOrBetter(intent.side, fill.quoteQuantity, plan.target, plan.jobRoute.limitPrice, intent.tokenDecimals)
  }

  predicate Executable(intent: Intent, route: Route, fill: Fill) {
    Usable(intent, route) && WholeTrade(fill, intent, PlanOf(intent, route))
  }

  function At(settlement: Settlement, row: Row, venue: VenueOrder, calls: seq<Call>, worker: Worker,
              balances: map<nat, int>, moved: map<nat, int>): Sys
  {
    Sys(0, 1, [Hedge(settlement, row, [], venue, calls)], [worker], [FeeIdle], balances, moved)
  }

  predicate NoFeeSteps(run: seq<Step>) { forall k :: 0 <= k < |run| ==> !IsFeeStep(run[k]) }

  /** From an empty system to a hedge whose route is stored. */
  lemma ReachPrepared(settlement: Settlement, route: Route) returns (run: seq<Step>, t: Sys)
    requires PlanHedge(settlement).Some? && Usable(PlanHedge(settlement).value, route)
    ensures Reaches(ONE_WORKER, t, run) && NoFeeSteps(run)
    ensures var intent := PlanHedge(settlement).value;
            var row := ClaimRow(FreshRow(intent, 0), 0, 0, 0);
            var plan := PlanOf(intent, route);
            t == At(settlement, row.(route := Some(plan.jobRoute), pnl := PnlPending),
                    NoOrder, [], Running(JobOf(0, row), plan, Querying), t.balances, t.moved)
  {
    hide MakePlan, LimitPrice, Quantize, PlanHedge, Settle;
    var intent := PlanHedge(settlement).value;
    var plan := PlanOf(intent, route);
    var row := ClaimRow(FreshRow(intent, 0), 0, 0, 0);
    var s0 := ONE_WORKER;
    run := [];
    assert Reaches(s0, s0, run);
    Extend(s0, s0, run, CreateHedge(settlement));
    run := run + [CreateHedge(settlement)];
    var s1 := Next(s0, CreateHedge(settlement));
    assert s1 == At(settlement, FreshRow(intent, 0), NoOrder, [], Idle, s1.balances, s1.moved);
    var claim := Claim(0, 0, 0, Some(route), 1_000, NoFault);
    Extend(s0, s1, run, claim);
    run := run + [claim];
    var s2 := Next(s1, claim);
    assert s2 == At(settlement, row, NoOrder, [], Running(JobOf(0, row), plan, Validating), s1.balances, s1.moved);
    Extend(s0, s2, run, ValidateReply(0, Answer(())));
    run := run + [ValidateReply(0, Answer(()))];
    var s3 := Next(s2, ValidateReply(0, Answer(())));
    assert s3 == At(settlement, row, NoOrder, [], Running(JobOf(0, row), plan, Preparing), s1.balances, s1.moved);
    Extend(s0, s3, run, RunStatement(0, NoFault));
    run := run + [RunStatement(0, NoFault)];
    t := Next(s3, RunStatement(0, NoFault));
  }

  /** On to the point before the submit call. */
  lemma ReachSubmitting(settlement: Settlement, route: Route) returns (run: seq<Step>, t: Sys)
    requires PlanHedge(settlement).Some? && Usable(PlanHedge(settlement).value, route)
    ensures Reaches(ONE_WORKER, t, run) && NoFeeSteps(run)
    ensures var intent := PlanHedge(settlement).value;
            var row := ClaimRow(FreshRow(intent, 0), 0, 0, 0);
            var plan := PlanOf(intent, route);
            t == At(settlement,
                    row.(route := Some(plan.jobRoute), pnl := PnlPending, submissionAttemptedAt := Some(0)),
                    NoOrder, [], Running(JobOf(0, row), plan, Submitting), t.balances, t.moved)
  {
    var s4;
    run, s4 := ReachPrepared(settlement, route);
    hide MakePlan, LimitPrice, Quantize, PlanHedge, Settle;
    var intent := PlanHedge(settlement).value;
    var plan := PlanOf(intent, route);
    var row := ClaimRow(FreshRow(intent, 0), 0, 0, 0);
    var s0, s1 := ONE_WORKER, s4;
    var prepared := row.(route := Some(plan.jobRoute), pnl := PnlPending);
    assert s4 == At(settlement, prepared, NoOrder, [], Running(JobOf(0, row), plan, Querying), s1.balances, s1.moved);
    Extend(s0, s4, run, QueryReply(0, Answer(None)));
    run := run + [QueryReply(0, Answer(None))];
    var s5 := Next(s4, QueryReply(0, Answer(None)));
    assert s5 == At(settlement, prepared, NoOrder, [], Running(JobOf(0, row), plan, Authorizing), s1.balances, s1.moved);
    Extend(s0, s5, run, RunStatement(0, NoFault));
    run := run + [RunStatement(0, NoFault)];
    t := Next(s5, RunStatement(0, NoFault));
  }

  lemma PlanFacts(intent: Intent, route: Route)
    requires Usable(intent, route)
    ensures var plan := PlanOf(intent, route);
            && 0 < plan.target <= intent.amount
            && plan.jobRoute.route == route && plan.jobRoute.clientOrderId == 0
            && route.quoteToken == intent.referenceToken
            && route.tokenDecimals == intent.tokenDecimals
            && plan.target % route.stepSizeRaw == 0
  {
    hide Quantize, LimitPrice;
    QuantizeGreatest(intent.amount, route.stepSizeRaw, 0);
  }

  /** The row once the submission is authorised, and the report of its full execution. */
  function PreparedRow(intent: Intent, plan: Plan): Row {
    ClaimRow(FreshRow(intent, 0), 0, 0, 0).(route := Some(plan.jobRoute), pnl := PnlPending, submissionAttemptedAt := Some(0))
  }

  function ExecutedOrder(plan: Plan, fill: Fill): VenueOrder {
    Order(7, FullyExecuted, plan.target, fill.quoteQuantity,
          {Evidence(0, 0), Evidence(plan.target, fill.quoteQuantity)}, [fill])
  }

  function FullReport(plan: Plan, fill: Fill): OrderReply { OrderReply(OrderFilled, 7, plan.target, fill.quoteQuantity) }

  /** The order is accepted and executed at once, and the worker hears of it. */
  lemma ReachExecuted(settlement: Settlement, route: Route, fill: Fill) returns (run: seq<Step>, t: Sys)
    requires PlanHedge(settlement).Some? && Executable(PlanHedge(settlement).value, route, fill)
    ensures Reaches(ONE_WORKER, t, run)
    ensures var intent := PlanHedge(settlement).value;
            var plan := PlanOf(intent, route);
            t == At(settlement, PreparedRow(intent, plan), ExecutedOrder(plan, fill),
                    [SubmitCall(plan.jobRoute, intent.side, plan.target)],
                    Running(JobOf(0, ClaimRow(FreshRow(intent, 0), 0, 0, 0)), plan,
                            Applying(FullReport(plan, fill), OrderPendingCode)),
                    t.balances, t.moved)
  {
    var s0;
    run, s0 := ReachSubmitting(settlement, route);
    var intent := PlanHedge(settlement).value;
    var plan := PlanOf(intent, route);
    PlanFacts(intent, route);
    hide MakePlan, PlanHedge, AtOrBetter, Legal, After, Usable, PlanOf, At, Enabled, Next, PreparedRow;
    var s1 := SubmitStep(s0, settlement, intent, plan);
    Extend(ONE_WORKER, s0, run, Submit(0));
    run := run + [Submit(0)];
    var s2 := AcceptStep(s1, settlement, intent, plan);
    Extend(ONE_WORKER, s1, run, Accept(0, 7));
    run := run + [Accept(0, 7)];
    var s3 := TradeStep(s2, settlement, intent, plan, fill);
    Extend(ONE_WORKER, s2, run, Trade(0, plan.target, fill));
    run := run + [Trade(0, plan.target, fill)];
    var reply := SubmitReply(0, Answer(FullReport(plan, fill)));
    t := ReplyStep(s3, settlement, intent, plan, fill);
    Extend(ONE_WORKER, s3, run, reply);
    run := run + [reply];
  }

  function JobAt0(intent: Intent): Job { JobOf(0, ClaimRow(FreshRow(intent, 0), 0, 0, 0)) }

  /** The system after the submit call, for each state of the order. */
  function Submitted(settlement: Settlement, intent: Intent, plan: Plan, venue: VenueOrder, pc: Pc, s: Sys): Sys {
    At(settlement, PreparedRow(intent, plan), venue, [SubmitCall(plan.jobRoute, intent.side, plan.target)],
       Running(JobAt0(intent), plan, pc), s.balances, s.moved)
  }

  lemma SubmitStep(s: Sys, settlement: Settlement, intent: Intent, plan: Plan) returns (t: Sys)
    requires s == At(settlement, PreparedRow(intent, plan), NoOrder, [], Running(JobAt0(intent), plan, Submitting),
                     s.balances, s.moved)
    ensures Enabled(s, Submit(0))
    ensures t == Next(s, Submit(0)) == Submitted(settlement, intent, plan, InFlight, AwaitingSubmit, s)
  {
    hide PreparedRow;
    var call := SubmitCall(plan.jobRoute, intent.side, plan.target);
    assert s.hedges[0].calls + [call] == [call];
    t := Next(s, Submit(0));
    assert t.hedges == [s.hedges[0].(calls := [call], venue := InFlight)];
  }

  lemma AcceptStep(s: Sys, settlement: Settlement, intent: Intent, plan: Plan) returns (t: Sys)
    requires s == Submitted(settlement, intent, plan, InFlight, AwaitingSubmit, s)
    ensures Enabled(s, Accept(0, 7))
    ensures t == Next(s, Accept(0, 7)) == Submitted(settlement, intent, plan, FreshOrder(7), AwaitingSubmit, s)
  {
    hide PreparedRow, JobAt0;
    t := Next(s, Accept(0, 7));
  }

  lemma TradeStep(s: Sys, settlement: Settlement, intent: Intent, plan: Plan, fill: Fill) returns (t: Sys)
    requires s == Submitted(settlement, intent, plan, FreshOrder(7), AwaitingSubmit, s)
    requires plan.target > 0 && WholeTrade(fill, intent, plan)
    requires plan.jobRoute.route.tokenDecimals == intent.tokenDecimals
    ensures Enabled(s, Trade(0, plan.target, fill))
    ensures t == Next(s, Trade(0, plan.target, fill))
              == Submitted(settlement, intent, plan, ExecutedOrder(plan, fill), AwaitingSubmit, s)
  {
    hide PreparedRow, JobAt0, AtOrBetter, PriceOk, Times, Pow10;
    t := Next(s, Trade(0, plan.target, fill));
    assert t.hedges[0].venue == ExecutedOrder(plan, fill);
  }

  lemma ReplyStep(s: Sys, settlement: Settlement, intent: Intent, plan: Plan, fill: Fill) returns (t: Sys)
    requires s == Submitted(settlement, intent, plan, ExecutedOrder(plan, fill), AwaitingSubmit, s)
    ensures var reply := SubmitReply(0, Answer(FullReport(plan, fill)));
            && Enabled(s, reply)
            && t == Next(s, reply)
            && t == Submitted(settlement, intent, plan, ExecutedOrder(plan, fill),
                              Applying(FullReport(plan, fill), OrderPendingCode), s)
  {
    hide PreparedRow;
    t := Next(s, SubmitReply(0, Answer(FullReport(plan, fill))));
  }

  predicate FilledRow(r: Row, intent: Intent, plan: Plan, fill: Fill) {
    && r.intent == intent && r.status.Filled? && r.route == Some(plan.jobRoute)
    && r.filled == Some(plan.target) && r.quote == Some(fill.quoteQuantity) && r.venueOrderId == Some(7)
    && r.fee.FeePending? && r.feeNextAttemptAt == 0
  }

  lemma CompleteOnce(intent: Intent, plan: Plan, fill: Fill)
    requires 0 < plan.target <= intent.amount
    ensures var out := CompleteTerminal(PreparedRow(intent, plan), 0, 0, Filled, None,
                                        Some(OrderIds(plan.jobRoute.clientOrderId, 7)), EvidenceOf(FullReport(plan, fill)));
            out.Ok? && FilledRow(out.value.row, intent, plan, fill) && out.value.row.feeLease.None?
  {
  }

  lemma FillStep(s: Sys, settlement: Settlement, intent: Intent, plan: Plan, fill: Fill) returns (t: Sys)
    requires s == Submitted(settlement, intent, plan, ExecutedOrder(plan, fill),
                            Applying(FullReport(plan, fill), OrderPendingCode), s)
    requires 0 < plan.target <= intent.amount && plan.target % plan.jobRoute.route.stepSizeRaw == 0
    ensures var step := RunStatement(0, NoFault);
            Enabled(s, step) && t == Next(s, step)
    ensures |t.hedges| == 1 && t.feeWorkers == [FeeIdle] && t.now == 0
    ensures FilledRow(t.hedges[0].row, intent, plan, fill)
    ensures t.hedges[0].row.feeLease.None? && t.hedges[0].fills == []
  {
    CompleteOnce(intent, plan, fill);
    hide CompleteTerminal, PreparedRow, FilledRow, Add, CancelDue;
    t := Next(s, RunStatement(0, NoFault));
  }

  /** The worker records the full execution. */
  lemma ReachFilled(settlement: Settlement, route: Route, fill: Fill) returns (run: seq<Step>, t: Sys)
    requires PlanHedge(settlement).Some? && Executable(PlanHedge(settlement).value, route, fill)
    ensures Reaches(ONE_WORKER, t, run)
    ensures |t.hedges| == 1 && t.feeWorkers == [FeeIdle] && t.now == 0
    ensures var intent := PlanHedge(settlement).value;
            FilledRow(t.hedges[0].row, intent, PlanOf(intent, route), fill)
            && t.hedges[0].row.feeLease.None? && t.hedges[0].fills == []
  {
    var s0;
    run, s0 := ReachExecuted(settlement, route, fill);
    var intent := PlanHedge(settlement).value;
    var plan := PlanOf(intent, route);
    PlanFacts(intent, route);
    t := FillStep(s0, settlement, intent, plan, fill);
    hide MakePlan, PlanHedge, AtOrBetter, Legal, After, Usable, PlanOf, FilledRow, Enabled, Next;
    Extend(ONE_WORKER, s0, run, RunStatement(0, NoFault));
    run := run + [RunStatement(0, NoFault)];
  }

  /** The fee worker has the order and its trade in hand. */
  lemma ReachCommitting(settlement: Settlement, route: Route, fill: Fill) returns (run: seq<Step>, t: Sys)
    requires PlanHedge(settlement).Some? && Executable(PlanHedge(settlement).value, route, fill)
    ensures 0 < PlanOf(PlanHedge(settlement).value, route).target
    ensures Reaches(ONE_WORKER, t, run)
    ensures var intent := PlanHedge(settlement).value;
            var plan := PlanOf(intent, route);
            FeeAt(t, intent, plan, fill, FeeCommitting(FullReport(plan, fill), [fill]))
  {
    var s0;
    run, s0 := ReachFilled(settlement, route, fill);
    var intent := PlanHedge(settlement).value;
    var plan := PlanOf(intent, route);
    PlanFacts(intent, route);
    hide MakePlan, LimitPrice, Quantize, PlanHedge, AtOrBetter, Times, Pow10, Legal, After, Usable, PlanOf;
    hide Enabled, Next, FilledRow, FeeClaimRow, FeeJobOf, WholeTrade;
    var claim := FeeClaim(0, 0, 1_000, Some(plan.jobRoute.route), NoFault);
    var s1 := FeeClaimStep(s0, intent, plan, fill);
    Extend(ONE_WORKER, s0, run, claim);
    run := run + [claim];
    var query := FeeQueryReply(0, Answer(Some(FullReport(plan, fill))));
    var s2 := FeeQueryStep(s1, intent, plan, fill);
    Extend(ONE_WORKER, s1, run, query);
    run := run + [query];
    var trades := FeeTradesReply(0, Answer([fill]));
    t := FeeTradesStep(s2, intent, plan, fill);
    Extend(ONE_WORKER, s2, run, trades);
    run := run + [trades];
  }

  /** One fee worker holds the filled hedge at the given program counter. */
  predicate FeeAt(s: Sys, intent: Intent, plan: Plan, fill: Fill, pc: FeePc) {
    && |s.hedges| == 1 && |s.feeWorkers| == 1
    && FilledRow(s.hedges[0].row, intent, plan, fill) && FeeOwns(s.hedges[0].row, 0) && s.hedges[0].fills == []
    && s.feeWorkers[0] == FeeRunning(FeeJobOf(0, s.hedges[0].row), pc)
  }

  lemma FeeClaimStep(s: Sys, intent: Intent, plan: Plan, fill: Fill) returns (t: Sys)
    requires |s.hedges| == 1 && s.feeWorkers == [FeeIdle]
    requires FilledRow(s.hedges[0].row, intent, plan, fill) && s.hedges[0].row.feeLease.None? && s.hedges[0].fills == []
    requires plan.jobRoute.route.tokenDecimals == intent.tokenDecimals
    ensures var claim := FeeClaim(0, 0, 1_000, Some(plan.jobRoute.route), NoFault);
            Enabled(s, claim) && t == Next(s, claim) && FeeAt(t, intent, plan, fill, FeeQuerying(plan.jobRoute.route))
  {
    t := Next(s, FeeClaim(0, 0, 1_000, Some(plan.jobRoute.route), NoFault));
  }

  lemma FeeQueryStep(s: Sys, intent: Intent, plan: Plan, fill: Fill) returns (t: Sys)
    requires FeeAt(s, intent, plan, fill, FeeQuerying(plan.jobRoute.route))
    requires plan.target % plan.jobRoute.route.stepSizeRaw == 0
    ensures var query := FeeQueryReply(0, Answer(Some(FullReport(plan, fill))));
            Enabled(s, query) && t == Next(s, query) && FeeAt(t, intent, plan, fill, FeeTrading(FullReport(plan, fill)))
  {
    t := Next(s, FeeQueryReply(0, Answer(Some(FullReport(plan, fill)))));
  }

  lemma FeeTradesStep(s: Sys, intent: Intent, plan: Plan, fill: Fill) returns (t: Sys)
    requires plan.target > 0 && WholeTrade(fill, intent, plan)
    requires FeeAt(s, intent, plan, fill, FeeTrading(FullReport(plan, fill)))
    ensures var fills := [fill];
            var trades := FeeTradesReply(0, Answer(fills));
            && Enabled(s, trades) && t == Next(s, trades)
            && FeeAt(t, intent, plan, fill, FeeCommitting(FullReport(plan, fill), fills))
  {
    OneFillAccepted(s.feeWorkers[0].job, intent, plan, fill);
    TradesShown(s, FullReport(plan, fill), [fill]);
    hide Next, Enabled, AfterTrades, WholeTrade, FilledRow;
    t := Next(s, FeeTradesReply(0, Answer([fill])));
  }

  lemma TradesShown(s: Sys, order: OrderReply, fills: seq<Fill>)
    requires |s.hedges| == 1 && |s.feeWorkers| == 1
    requires s.feeWorkers[0].FeeRunning? && s.feeWorkers[0].job.hedge == 0 && s.feeWorkers[0].pc == FeeTrading(order)
    ensures var step := FeeTradesReply(0, Answer(fills));
            && Enabled(s, step)
            && Next(s, step) == s.(feeWorkers := [AfterTrades(s.feeWorkers[0].job, order, Answer(fills))])
  {
    hide AfterTrades;
  }

  lemma OneFillAccepted(job: FeeJob, intent: Intent, plan: Plan, fill: Fill)
    requires plan.target > 0 && WholeTrade(fill, intent, plan) && job.intent == intent
    ensures AfterTrades(job, FullReport(plan, fill), Answer([fill]))
            == FeeRunning(job, FeeCommitting(FullReport(plan, fill), [fill]))
  {
    OneFill(intent, plan, fill);
    hide Times, Pow10, SumQuantity, SumQuote, FillSetOk, AtOrBetter, PriceOk;
  }

  lemma FeeCommitStep(s: Sys, intent: Intent, plan: Plan, fill: Fill) returns (t: Sys)
    requires 0 < plan.target <= intent.amount && WholeTrade(fill, intent, plan)
    requires plan.jobRoute.route.quoteToken == intent.referenceToken
    requires FeeAt(s, intent, plan, fill, FeeCommitting(FullReport(plan, fill), [fill]))
    ensures Enabled(s, FeeStatement(0, NoFault)) && t == Next(s, FeeStatement(0, NoFault))
    ensures |t.hedges| == 1
    ensures var r := t.hedges[0].row;
            r.status.Filled? && r.fee.FeeComplete? && r.pnl.PnlDone? && r.pnl.pnl.Complete?
  {
    CommitOnce(s.hedges[0], s.now, s.retryDelayMs, intent, plan, fill);
    CommitShown(s);
    hide Next, Enabled, FeeEffect, FilledRow, WholeTrade;
    t := Next(s, FeeStatement(0, NoFault));
  }

  lemma CommitShown(s: Sys)
    requires |s.hedges| == 1 && |s.feeWorkers| == 1
    requires s.feeWorkers[0].FeeRunning? && s.feeWorkers[0].job.hedge == 0 && s.feeWorkers[0].pc.FeeCommitting?
    requires FeeEffect(0, s.feeWorkers[0], s.hedges[0], s.now, s.retryDelayMs).Ok?
    ensures var step := FeeStatement(0, NoFault);
            && Enabled(s, step)
            && Next(s, step).hedges == [FeeEffect(0, s.feeWorkers[0], s.hedges[0], s.now, s.retryDelayMs).value]
  {
    hide FeeEffect, AfterFeeStatement;
  }

  lemma CommitOnce(g: Hedge, now: nat, retryDelayMs: nat, intent: Intent, plan: Plan, fill: Fill)
    requires 0 < plan.target <= intent.amount && WholeTrade(fill, intent, plan)
    requires plan.jobRoute.route.quoteToken == intent.referenceToken
    requires FilledRow(g.row, intent, plan, fill) && FeeOwns(g.row, 0) && g.fills == []
    ensures var worker := FeeRunning(FeeJobOf(0, g.row), FeeCommitting(FullReport(plan, fill), [fill]));
            var out := FeeEffect(0, worker, g, now, retryDelayMs);
            && out.Ok?
            && var r := out.value.row;
               r.status.Filled? && r.fee.FeeComplete? && r.pnl.PnlDone? && r.pnl.pnl.Complete?
  {
    OneFill(intent, plan, fill);
    ReconcileOnce(g.row, plan, fill);
    hide CompleteReconciliation, FillSetOk, SumQuantity, SumQuote, WholeTrade;
  }

  /** From any planned settlement, usable route and price at or better than the limit there is a run that ends
      with the hedge filled, its fees complete and its net PnL recorded. */
  lemma FeeCompletionReachable(settlement: Settlement, route: Route, fill: Fill)
    requires PlanHedge(settlement).Some? && Executable(PlanHedge(settlement).value, route, fill)
    ensures exists run: seq<Step> ::
              && Legal(ONE_WORKER, run)
              && |After(ONE_WORKER, run).hedges| == 1
              && After(ONE_WORKER, run).hedges[0].row.status.Filled?
              && After(ONE_WORKER, run).hedges[0].row.fee.FeeComplete?
              && After(ONE_WORKER, run).hedges[0].row.pnl.PnlDone?
              && After(ONE_WORKER, run).hedges[0].row.pnl.pnl.Complete?
  {
    var run, s0 := ReachCommitting(settlement, route, fill);
    var intent := PlanHedge(settlement).value;
    var plan := PlanOf(intent, route);
    PlanFacts(intent, route);
    var t := FeeCommitStep(s0, intent, plan, fill);
    hide MakePlan, PlanHedge, AtOrBetter, Legal, After, Usable, PlanOf, Enabled, Next, FeeAt;
    Extend(ONE_WORKER, s0, run, FeeStatement(0, NoFault));
    assert Reaches(ONE_WORKER, t, run + [FeeStatement(0, NoFault)]);
  }

  lemma OneFill(intent: Intent, plan: Plan, fill: Fill)
    requires WholeTrade(fill, intent, plan)
    ensures var fills := [fill];
            && SumQuantity(fills) == Times(plan.target, Pow10(36 - intent.tokenDecimals))
            && SumQuote(fills) == fill.quoteQuantity
            && SumQuantity(fills) < TEN_TO_78
            && (forall f :: f in fills ==> f.isBuyer == intent.side.Buy?)
            && FillSetOk(fills, 7)
  {
    hide Times, Pow10;
    var fills := [fill];
    assert fills[..0] == [];
  }

  lemma ReconcileOnce(row: Row, plan: Plan, fill: Fill)
    requires FillSetOk([fill], 7) && SumQuote([fill]) == fill.quoteQuantity && SumQuantity([fill]) < TEN_TO_78
    requires fill.commission == 0
    requires row.status.Filled? && FeeOwns(row, 0) && row.route == Some(plan.jobRoute)
    requires plan.jobRoute.route.quoteToken == row.intent.referenceToken
    requires row.filled == Some(plan.target) && 0 < plan.target <= row.intent.amount
    requires row.quote == Some(fill.quoteQuantity) && row.venueOrderId == Some(7)
    ensures var out := CompleteReconciliation(row, [], 0, plan.target, 7, fill.quoteQuantity, [fill]);
            && out.Ok? && out.value.row.fee.FeeComplete? && out.value.row.status.Filled?
            && out.value.row.pnl.PnlDone? && out.value.row.pnl.pnl.Complete?
  {
    hide SumQuantity, SumQuote, FillSetOk, LatestExecution, ResidualQuote, TotalCharge, ReferenceScaled, UpsertFills;
    UpsertIntoEmpty([fill]);
    assert UnvaluedAssets([fill], PnlInputOf(row).value) == {};
  }

  // ---------------------------------------------------------------- the stuck states are real

  /** A crash between authorizeSubmission and submitLimitOrder orphans the hedge. */
  lemma OrphanReachable(settlement: Settlement, route: Route)
    requires PlanHedge(settlement).Some? && Usable(PlanHedge(settlement).value, route)
    ensures exists run: seq<Step> :: Legal(ONE_WORKER, run) && Orphaned(After(ONE_WORKER, run), 0)
  {
    var run, s := ReachSubmitting(settlement, route);
    hide PlanHedge, Usable, PlanOf, Legal, After, ClaimRow, FreshRow;
    assert Enabled(s, Crash(0)) && Next(s, Crash(0)).workers == [Idle];
    Extend(ONE_WORKER, s, run, Crash(0));
    assert Reaches(ONE_WORKER, Next(s, Crash(0)), run + [Crash(0)]);
    assert Orphaned(Next(s, Crash(0)), 0);
  }

  /** A rejected submission whose worker crashes before the reply strands the hedge, without orphaning it. */
  lemma StrandedReachable(settlement: Settlement, route: Route)
    requires PlanHedge(settlement).Some? && Usable(PlanHedge(settlement).value, route)
    ensures exists run: seq<Step> ::
              Legal(ONE_WORKER, run) && Stranded(After(ONE_WORKER, run), 0) && !Orphaned(After(ONE_WORKER, run), 0)
  {
    var run, s0 := ReachSubmitting(settlement, route);
    var intent := PlanHedge(settlement).value;
    var plan := PlanOf(intent, route);
    var s1 := SubmitStep(s0, settlement, intent, plan);
    var s2, s3 := RejectedAndCrashed(s1, settlement, intent, plan);
    hide PlanHedge, Usable, PlanOf, Legal, After, Next, Enabled, Stranded, Orphaned, Submitted, At;
    Extend(ONE_WORKER, s0, run, Submit(0));
    run := run + [Submit(0)];
    Extend(ONE_WORKER, s1, run, Reject(0));
    run := run + [Reject(0)];
    Extend(ONE_WORKER, s2, run, Crash(0));
    run := run + [Crash(0)];
    assert Reaches(ONE_WORKER, s3, run);
  }

  lemma RejectedAndCrashed(s: Sys, settlement: Settlement, intent: Intent, plan: Plan) returns (t: Sys, u: Sys)
    requires s == Submitted(settlement, intent, plan, InFlight, AwaitingSubmit, s)
    ensures Enabled(s, Reject(0)) && t == Next(s, Reject(0))
    ensures Enabled(t, Crash(0)) && u == Next(t, Crash(0))
    ensures Stranded(u, 0) && !Orphaned(u, 0)
  {
    t := Next(s, Reject(0));
    u := Next(t, Crash(0));
    assert u.workers == [Idle];
  }
}
