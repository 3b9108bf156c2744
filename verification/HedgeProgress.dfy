/** How a queued hedge can still end: the condition under which some worker can bring it to an end, and the run
    that does it. */
module HedgeProgress {
  import opened Arithmetic
  import opened HedgeRoute
  import opened HedgeNetPnl
  import opened HedgeRows
  import opened HedgeWorker
  import opened HedgePlanner
  import opened HedgeMachine
  import opened HedgeInvariant
  import opened HedgeSafety
  import opened HedgeStuck
  import opened HedgeRegimes

  // ---------------------------------------------------------------- the condition

  /** More of the order can trade: some positive quote amount for x units is at or better than the limit. */
  predicate Priced(call: Call, x: nat)
    requires call.SubmitCall?
  {
    x > 0 && (call.side.Sell? || Pow10(call.jobRoute.route.tokenDecimals) <= Times(call.jobRoute.limitPrice, x))
  }

  /** A worker with this plan accepts the final amount of an order of that many units: whole steps, within the
      target, and all of the target when the order is fully executed. */
  predicate Readable(plan: Plan, final: nat, ordered: nat) {
    final % plan.jobRoute.route.stepSizeRaw == 0 && final <= plan.target && (final == ordered ==> final == plan.target)
  }

  /** The order can end, or has ended, with an amount that the plan accepts. */
  ghost predicate FinalReachable(g: Hedge, plan: Plan) {
    && g.venue.Order? && g.calls != [] && g.calls[0].SubmitCall?
    && var ordered := g.calls[0].quantity;
       if HasEnded(g.venue) then Readable(plan, g.venue.executed, ordered)
       else exists final: nat :: FinalPossible(g, final) && Readable(plan, final, ordered)
  }

  predicate FinalPossible(g: Hedge, final: nat)
    requires g.venue.Order? && g.calls != [] && g.calls[0].SubmitCall?
  {
    && g.venue.executed <= final <= g.calls[0].quantity
    && (final == g.venue.executed || Priced(g.calls[0], final - g.venue.executed))
  }

  /** A worker that asks for the order with this plan can hear of an end that it accepts. */
  ghost predicate OrderLeads(s: Sys, h: nat, plan: Plan)
    requires h < |s.hedges|
  {
    match s.hedges[h].venue
    case NoOrder => exists v :: 0 <= v < |s.workers| && AboutToSubmit(s.workers[v], h)
    case InFlight => true
    case Rejected => false
    case Order(_, _, _, _, _, _) => FinalReachable(s.hedges[h], plan)
  }

  /** prepareRoute accepts the plan. */
  predicate FitsRoute(r: Row, plan: Plan) { r.route.None? || r.route == Some(plan.jobRoute) }

  /** Worker w is at work on h under its lease. */
  predicate AtWork(s: Sys, w: nat, h: nat) {
    && w < |s.workers| && h < |s.hedges|
    && !s.workers[w].Idle? && s.workers[w].job.hedge == h && Owns(s.hedges[h].row, w)
  }

  /** Worker w can end the hedge from where it stands, with the plan it has. */
  ghost predicate HolderCanEnd(s: Sys, w: nat, h: nat, rulesKept: bool) {
    && AtWork(s, w, h)
    && var g := s.hedges[h];
       match s.workers[w]
       case Idle => false
       case Closing(_, end) => end.Failing?
       case Running(job, plan, pc) =>
         if g.row.submissionAttemptedAt.None? then FitsRoute(g.row, plan) || (pc.Validating? && !rulesKept)
         else match pc
              case Applying(o, _) => !o.state.OrderPending? && ReplyError(o, plan).None?
              case AwaitingSubmit => g.venue.Rejected? || OrderLeads(s, h, plan)
              case _ => OrderLeads(s, h, plan)
  }

  function PlanNow(h: nat, r: Row, setup: Setup): Reply<Plan> { MakePlan(JobOf(h, r), setup.config, setup.maxOrderAgeMs) }

  /** A later claim can end the hedge. */
  ghost predicate ClaimCanEnd(s: Sys, h: nat, setup: Setup)
    requires h < |s.hedges|
  {
    var r := s.hedges[h].row;
    match PlanNow(h, r, setup)
    case Refusal(e) => !e.retryable && r.submissionAttemptedAt.None?
    case Answer(plan) =>
      if r.submissionAttemptedAt.None? then FitsRoute(r, plan) || !setup.rulesKept else OrderLeads(s, h, plan)
  }

  ghost predicate CanStillEnd(s: Sys, h: nat, setup: Setup)
    requires h < |s.hedges|
  {
    (exists w :: 0 <= w < |s.workers| && HolderCanEnd(s, w, h, setup.rulesKept)) || ClaimCanEnd(s, h, setup)
  }

  // ---------------------------------------------------------------- failing a hedge

  /** A worker that fails the hedge under its lease ends it. */
  lemma FailingEnds(s: Sys, w: nat, h: nat, regime: Regime)
    requires AtWork(s, w, h) && s.workers[w].Closing? && s.workers[w].end.Failing?
    ensures Can(s, Ends(h), regime)
  {
    var step := RunStatement(w, NoFault);
    assert Next(s, step).hedges[h].row.status.Failed?;
    hide Next;
    Already(Next(s, step), Ends(h), regime);
    BeforeFree(s, step, Ends(h), regime);
  }

  // ---------------------------------------------------------------- recording an ended order

  predicate HasEnded(v: VenueOrder) { v.Order? && !v.phase.Open? }

  /** The report of an order that has ended. */
  function FinalReport(v: VenueOrder): OrderReply
    requires HasEnded(v)
  {
    OrderReply(if v.phase.FullyExecuted? then OrderFilled else OrderFailed(v.phase.code), v.id, v.executed, v.quote)
  }

  lemma TerminalReport(v: VenueOrder, o: OrderReply)
    requires Honest(v, o) && !o.state.OrderPending?
    ensures HasEnded(v) && o == FinalReport(v)
  {
  }

  /** The store accepts the final amounts of the hedge's own order: whatever was recorded is an earlier pair. */
  lemma FinalAccepted(h: nat, g: Hedge, w: nat, now: nat, status: Status, code: Option<ErrorCode>)
    requires HedgeInv(h, g) && Owns(g.row, w) && HasEnded(g.venue)
    requires status == if g.venue.phase.FullyExecuted? then Filled else Failed
    ensures CompleteTerminal(g.row, w, now, status, code, Some(OrderIds(h, g.venue.id)),
                             EvidenceOf(FinalReport(g.venue))).Ok?
  {
    WithinAmount(h, g);
    hide RouteInv, TerminalInv, FeeInv, PnlInv, PlanHedge, AtOrBetter, Quantize, LimitPrice, TradesInv;
  }

  lemma WithinAmount(h: nat, g: Hedge)
    requires HedgeInv(h, g) && g.venue.Order?
    ensures g.row.route.Some? && g.row.submissionAttemptedAt.Some?
    ensures g.calls != [] && g.calls[0].SubmitCall?
    ensures g.venue.executed <= g.row.intent.amount
    ensures Quantize(g.row.intent.amount, g.row.route.value.route.stepSizeRaw) == Some(g.calls[0].quantity)
    ensures g.venue.executed <= g.calls[0].quantity
    ensures g.venue.phase.FullyExecuted? <==> g.venue.executed == g.calls[0].quantity
    ensures g.venue.executed == 0 <==> g.venue.quote == 0
  {
    hide EvidenceInv, TerminalInv, FeeInv, PnlInv, PlanHedge, AtOrBetter, Quantize, LimitPrice, TradesInv;
    QuantizeGreatest(g.row.intent.amount, g.row.route.value.route.stepSizeRaw, 0);
  }

  lemma FullInSteps(h: nat, g: Hedge)
    requires HedgeInv(h, g) && g.row.route.Some? && g.venue.Order? && g.venue.phase.FullyExecuted?
    ensures g.venue.executed % g.row.route.value.route.stepSizeRaw == 0
  {
    WithinAmount(h, g);
    hide HedgeInv, Quantize;
    QuantizeGreatest(g.row.intent.amount, g.row.route.value.route.stepSizeRaw, 0);
  }

  lemma ApplyingEnds(s: Sys, w: nat, h: nat, regime: Regime)
    requires Inv(s) && AtWork(s, w, h) && s.workers[w].Running? && s.workers[w].pc.Applying?
    requires !s.workers[w].pc.order.state.OrderPending?
    requires ReplyError(s.workers[w].pc.order, s.workers[w].plan).None?
    ensures Can(s, Ends(h), regime)
  {
    var worker := s.workers[w];
    var g := s.hedges[h];
    HedgeAt(s.hedges, h);
    assert WorkerBound(w, worker, s.hedges);
    PlanNames(worker.job, h, worker.plan);
    TerminalReport(g.venue, worker.pc.order);
    var status := if g.venue.phase.FullyExecuted? then Filled else Failed;
    FinalAccepted(h, g, w, s.now, status, if status.Filled? then None else Some(g.venue.phase.code));
    var step := RunStatement(w, NoFault);
    ApplyStep(s, w, h);
    hide Next, Inv, HedgeInv, WorkerOk, Enabled;
    Already(Next(s, step), Ends(h), regime);
    BeforeFree(s, step, Ends(h), regime);
  }

  lemma ApplyStep(s: Sys, w: nat, h: nat)
    requires AtWork(s, w, h) && s.workers[w].Running? && s.workers[w].pc.Applying?
    requires HasEnded(s.hedges[h].venue) && s.workers[w].pc.order == FinalReport(s.hedges[h].venue)
    requires ReplyError(s.workers[w].pc.order, s.workers[w].plan).None?
    requires s.workers[w].plan.jobRoute.clientOrderId == h
    requires var v := s.hedges[h].venue;
             CompleteTerminal(s.hedges[h].row, w, s.now, if v.phase.FullyExecuted? then Filled else Failed,
                              if v.phase.FullyExecuted? then None else Some(v.phase.code), Some(OrderIds(h, v.id)),
                              EvidenceOf(FinalReport(v))).Ok?
    ensures Enabled(s, RunStatement(w, NoFault)) && Met(Ends(h), Next(s, RunStatement(w, NoFault)))
  {
    var worker := s.workers[w];
    var out := Statement(w, worker, s.hedges[h].row, s.now, s.retryDelayMs);
    assert out.Ok? && !out.value.row.status.Queued? by { hide ReplyError, CheckFill, CheckEvidence, Owns; }
    hide Statement, AfterStatement, CompleteTerminal, ReplyError, CancelDue, Add, Owns;
  }

  // ---------------------------------------------------------------- hearing of an ended order

  /** The order has ended and worker w, at work on it, accepts the final report. */
  predicate Reads(s: Sys, w: nat, h: nat) {
    && AtWork(s, w, h) && s.workers[w].Running? && HasEnded(s.hedges[h].venue)
    && ReplyError(FinalReport(s.hedges[h].venue), s.workers[w].plan).None?
  }

  /** The same order, lease and plan. */
  predicate SameView(s: Sys, t: Sys, w: nat, h: nat)
    requires Reads(s, w, h)
  {
    && AtWork(t, w, h) && t.workers[w].Running?
    && t.hedges[h].venue == s.hedges[h].venue && t.workers[w].plan == s.workers[w].plan
  }

  lemma ReplyEnds(s: Sys, w: nat, h: nat, regime: Regime)
    requires Inv(s) && Reads(s, w, h) && (s.workers[w].pc.AwaitingSubmit? || s.workers[w].pc.AwaitingCancel?)
    ensures Can(s, Ends(h), regime)
  {
    hide Inv, Can, Next, Enabled, ReplyError;
    var step := FinalReply(s, w, h);
    ReplyStep(s, w, h);
    FreeStep(s, step, Ends(h), regime);
    ApplyingEnds(Next(s, step), w, h, regime);
  }

  function FinalReply(s: Sys, w: nat, h: nat): Step
    requires Reads(s, w, h)
  {
    var report := FinalReport(s.hedges[h].venue);
    if s.workers[w].pc.AwaitingSubmit? then SubmitReply(w, Answer(report)) else CancelReply(w, Answer(report))
  }

  lemma ReplyStep(s: Sys, w: nat, h: nat)
    requires Reads(s, w, h) && (s.workers[w].pc.AwaitingSubmit? || s.workers[w].pc.AwaitingCancel?)
    ensures Enabled(s, FinalReply(s, w, h))
    ensures var t := Next(s, FinalReply(s, w, h));
            SameView(s, t, w, h) && t.workers[w].pc.Applying?
            && t.workers[w].pc.order == FinalReport(s.hedges[h].venue)
  {
    hide ReplyError;
  }

  lemma CancelingEnds(s: Sys, w: nat, h: nat, regime: Regime)
    requires Inv(s) && Reads(s, w, h) && s.workers[w].pc.Canceling?
    ensures Can(s, Ends(h), regime)
  {
    hide Inv, Can, Next, Enabled, ReplyError;
    CancelStep(s, w, h);
    FreeStep(s, Cancel(w), Ends(h), regime);
    ReplyEnds(Next(s, Cancel(w)), w, h, regime);
  }

  lemma CancelStep(s: Sys, w: nat, h: nat)
    requires Reads(s, w, h) && s.workers[w].pc.Canceling?
    ensures Enabled(s, Cancel(w))
    ensures SameView(s, Next(s, Cancel(w)), w, h) && Next(s, Cancel(w)).workers[w].pc.AwaitingCancel?
  {
    hide ReplyError;
  }

  /** Once the order is over age its cancel is due. */
  lemma CheckingEnds(s: Sys, w: nat, h: nat, regime: Regime)
    requires Inv(s) && Reads(s, w, h) && s.workers[w].pc.CheckingCancel?
    ensures Can(s, Ends(h), regime)
  {
    HedgeAt(s.hedges, h);
    WithinAmount(h, s.hedges[h]);
    var r := s.hedges[h].row;
    var over := r.submissionAttemptedAt.value + r.route.value.maxOrderAgeMs;
    var tick := Tick(if over > s.now then over else s.now);
    var t := Next(s, tick);
    assert Enabled(s, tick) && t.hedges == s.hedges && t.workers == s.workers && CancelDue(t.hedges[h].row, w, t.now);
    assert Reads(t, w, h);
    hide Inv, Can, Next, Enabled, ReplyError, HedgeInv;
    FreeStep(s, tick, Ends(h), regime);
    DueStep(t, w, h);
    FreeStep(t, RunStatement(w, NoFault), Ends(h), regime);
    CancelingEnds(Next(t, RunStatement(w, NoFault)), w, h, regime);
  }

  lemma DueStep(s: Sys, w: nat, h: nat)
    requires Reads(s, w, h) && s.workers[w].pc.CheckingCancel? && CancelDue(s.hedges[h].row, w, s.now)
    ensures var step := RunStatement(w, NoFault);
            && Enabled(s, step)
            && SameView(s, Next(s, step), w, h) && Next(s, step).workers[w].pc.Canceling?
  {
    hide ReplyError, Add;
  }

  lemma ObservingEnds(s: Sys, w: nat, h: nat, regime: Regime)
    requires Inv(s) && Reads(s, w, h) && s.workers[w].pc.Observing?
    ensures Can(s, Ends(h), regime)
  {
    var step := RunStatement(w, NoFault);
    HedgeAt(s.hedges, h);
    WithinAmount(h, s.hedges[h]);
    assert WorkerBound(w, s.workers[w], s.hedges);
    if !s.workers[w].pc.order.state.OrderPending? { TerminalReport(s.hedges[h].venue, s.workers[w].pc.order); }
    hide Inv, Can, Next, Enabled, ReplyError, HedgeInv, WorkerOk;
    ObserveStep(s, w, h);
    FreeStep(s, step, Ends(h), regime);
    if s.workers[w].pc.order.state.OrderPending? {
      CheckingEnds(Next(s, step), w, h, regime);
    } else {
      ApplyingEnds(Next(s, step), w, h, regime);
    }
  }

  lemma ObserveStep(s: Sys, w: nat, h: nat)
    requires Reads(s, w, h) && s.workers[w].pc.Observing? && s.hedges[h].row.route.Some?
    ensures var step := RunStatement(w, NoFault);
            var o := s.workers[w].pc.order;
            && Enabled(s, step)
            && SameView(s, Next(s, step), w, h)
            && Next(s, step).workers[w].pc == if o.state.OrderPending? then CheckingCancel(o)
                                              else Applying(o, OrderPendingCode)
  {
    hide CancelDue, Add, ReplyError;
  }

  lemma QueryingEnds(s: Sys, w: nat, h: nat, regime: Regime)
    requires Inv(s) && Reads(s, w, h) && s.workers[w].pc.Querying?
    ensures Can(s, Ends(h), regime)
  {
    hide Inv, Can, Next, Enabled, ReplyError;
    var step := QueryReply(w, Answer(Some(FinalReport(s.hedges[h].venue))));
    QueryStep(s, w, h);
    FreeStep(s, step, Ends(h), regime);
    ObservingEnds(Next(s, step), w, h, regime);
  }

  lemma QueryStep(s: Sys, w: nat, h: nat)
    requires Reads(s, w, h) && s.workers[w].pc.Querying?
    ensures var step := QueryReply(w, Answer(Some(FinalReport(s.hedges[h].venue))));
            Enabled(s, step) && SameView(s, Next(s, step), w, h) && Next(s, step).workers[w].pc.Observing?
  {
    hide ReplyError;
  }

  /** A lease holder that accepts the final report ends the hedge from wherever it waits for the exchange. */
  lemma ReaderEnds(s: Sys, w: nat, h: nat, regime: Regime)
    requires Inv(s) && Reads(s, w, h)
    requires w < |s.workers| && s.workers[w].Running?
    requires var pc := s.workers[w].pc;
             pc.Querying? || pc.Observing? || pc.CheckingCancel? || pc.Canceling? || pc.AwaitingCancel? || pc.AwaitingSubmit?
    ensures Can(s, Ends(h), regime)
  {
    hide Inv, Reads, Can;
    match s.workers[w].pc
    case Querying => QueryingEnds(s, w, h, regime);
    case Observing(_) => ObservingEnds(s, w, h, regime);
    case CheckingCancel(_) => CheckingEnds(s, w, h, regime);
    case Canceling => CancelingEnds(s, w, h, regime);
    case _ => ReplyEnds(s, w, h, regime);
  }

  // ---------------------------------------------------------------- bringing the order to an end

  /** t is reached from s with the rows, the calls and the other workers as they were, and in it the order of h
      has ended with an amount that the plan accepts. */
  ghost predicate OrderOver(s: Sys, t: Sys, h: nat, plan: Plan)
    requires h < |s.hedges|
  {
    && Inv(t) && |t.hedges| == |s.hedges| && |t.workers| == |s.workers|
    && t.hedges[h].row == s.hedges[h].row
    && HasEnded(t.hedges[h].venue)
    && ReplyError(FinalReport(t.hedges[h].venue), plan).None?
    && forall w :: 0 <= w < |s.workers| && !AboutToSubmit(s.workers[w], h) ==> t.workers[w] == s.workers[w]
  }

  /** The trade that executes x more units. */
  function NextFill(g: Hedge, x: nat): FillFields
    requires g.venue.Order? && g.calls != [] && g.calls[0].SubmitCall?
  {
    var v, call := g.venue, g.calls[0];
    FillFields(if v.trades == [] then 1 else v.trades[|v.trades| - 1].tradeId + 1, v.id, call.jobRoute.limitPrice,
               Times(x, Pow10(36 - call.jobRoute.route.tokenDecimals)),
               if call.side.Buy? then 1 else Times(call.jobRoute.limitPrice, x), 0, "BNB", 1, call.side.Buy?, true)
  }

  lemma NextFillAllowed(h: nat, g: Hedge, x: nat)
    requires HedgeInv(h, g) && g.venue.Order? && g.venue.phase.Open?
    requires g.calls != [] && g.calls[0].SubmitCall? && g.venue.executed + x <= g.calls[0].quantity
    requires Priced(g.calls[0], x)
    ensures TradeAllowed(g, x, NextFill(g, x))
  {
    var call := g.calls[0];
    LimitPositive(h, g);
    MulMonotone(1, Pow10(call.jobRoute.route.tokenDecimals), Times(call.jobRoute.limitPrice, x));
    TimesPositive(call.jobRoute.limitPrice, x);
    assert Times(1, Pow10(call.jobRoute.route.tokenDecimals)) == Pow10(call.jobRoute.route.tokenDecimals);
    hide HedgeInv;
  }

  lemma LimitPositive(h: nat, g: Hedge)
    requires HedgeInv(h, g) && g.calls != [] && g.calls[0].SubmitCall?
    ensures g.calls[0].jobRoute.limitPrice > 0
  {
    hide VenueInv, TradesInv, EvidenceInv, TerminalInv, FeeInv, PnlInv, PlanHedge, Quantize, RoundToTick;
  }

  lemma ReadableMeans(h: nat, g: Hedge, plan: Plan)
    requires HedgeInv(h, g) && HasEnded(g.venue) && g.calls != [] && g.calls[0].SubmitCall?
    requires Readable(plan, g.venue.executed, g.calls[0].quantity)
    ensures ReplyError(FinalReport(g.venue), plan).None?
  {
    WithinAmount(h, g);
    hide HedgeInv;
  }

  lemma EndedOver(s: Sys, h: nat, plan: Plan)
    requires Inv(s) && h < |s.hedges| && HasEnded(s.hedges[h].venue) && FinalReachable(s.hedges[h], plan)
    ensures OrderOver(s, s, h, plan)
  {
    HedgeAt(s.hedges, h);
    ReadableMeans(h, s.hedges[h], plan);
  }

  /** Closing an open order whose executed amount the plan accepts. */
  lemma CloseOver(s: Sys, h: nat, plan: Plan, goal: Goal, regime: Regime) returns (t: Sys)
    requires Inv(s) && h < |s.hedges| && s.hedges[h].venue.Order? && s.hedges[h].venue.phase.Open?
    requires s.hedges[h].calls != [] && s.hedges[h].calls[0].SubmitCall?
    requires Readable(plan, s.hedges[h].venue.executed, s.hedges[h].calls[0].quantity)
    ensures OrderOver(s, t, h, plan) && (Can(t, goal, regime) ==> Can(s, goal, regime))
  {
    hide Inv, Can, Next, Enabled, ReplyError, Readable;
    CloseStep(s, h);
    t := Next(s, Close(h, WorkerInternal));
    FreeStep(s, Close(h, WorkerInternal), goal, regime);
    EndedOver(t, h, plan);
  }

  lemma CloseStep(s: Sys, h: nat)
    requires h < |s.hedges| && s.hedges[h].venue.Order? && s.hedges[h].venue.phase.Open?
    ensures var step := Close(h, WorkerInternal);
            && Enabled(s, step)
            && Next(s, step).workers == s.workers && |Next(s, step).hedges| == |s.hedges|
            && Next(s, step).hedges[h] == s.hedges[h].(venue := s.hedges[h].venue.(phase := Closed(WorkerInternal)))
  {
  }

  /** One more trade, and what it leaves open. */
  lemma TradeStep(s: Sys, h: nat, x: nat)
    requires h < |s.hedges| && s.hedges[h].calls != [] && s.hedges[h].calls[0].SubmitCall? && s.hedges[h].venue.Order?
    requires TradeAllowed(s.hedges[h], x, NextFill(s.hedges[h], x))
    ensures var g := s.hedges[h];
            var step := Trade(h, x, NextFill(g, x));
            var t := Next(s, step);
            && Enabled(s, step)
            && t.workers == s.workers && t.feeWorkers == s.feeWorkers && |t.hedges| == |s.hedges|
            && t.hedges[h].row == g.row && t.hedges[h].calls == g.calls && t.hedges[h].venue.Order?
            && |t.hedges[h].venue.trades| == |g.venue.trades| + 1
            && t.hedges[h].venue.executed == g.venue.executed + x
            && t.hedges[h].venue.phase == if g.venue.executed + x == g.calls[0].quantity then FullyExecuted
                                          else g.venue.phase
  {
    hide TradeAllowed, NextFill;
  }

  /** The order trades on to an amount that the plan accepts and ends there. */
  lemma OpenOver(s: Sys, h: nat, plan: Plan, goal: Goal, regime: Regime) returns (t: Sys)
    requires Inv(s) && h < |s.hedges| && s.hedges[h].venue.Order? && s.hedges[h].venue.phase.Open?
    requires FinalReachable(s.hedges[h], plan)
    ensures OrderOver(s, t, h, plan) && (Can(t, goal, regime) ==> Can(s, goal, regime))
  {
    hide Inv, Can, ReplyError, Readable, OrderOver, Priced;
    var g := s.hedges[h];
    var final: nat :| FinalPossible(g, final) && Readable(plan, final, g.calls[0].quantity);
    if final == g.venue.executed { t := CloseOver(s, h, plan, goal, regime); }
    else { t := TradedOver(s, h, final, plan, goal, regime); }
  }

  lemma TradedOver(s: Sys, h: nat, final: nat, plan: Plan, goal: Goal, regime: Regime) returns (t: Sys)
    requires Inv(s) && h < |s.hedges| && s.hedges[h].venue.Order? && s.hedges[h].venue.phase.Open?
    requires s.hedges[h].calls != [] && s.hedges[h].calls[0].SubmitCall?
    requires FinalPossible(s.hedges[h], final) && s.hedges[h].venue.executed < final
    requires Readable(plan, final, s.hedges[h].calls[0].quantity)
    ensures OrderOver(s, t, h, plan) && (Can(t, goal, regime) ==> Can(s, goal, regime))
  {
    hide Inv, Can, Next, Enabled, ReplyError, Priced, Readable, NextFill, TradeAllowed, HedgeInv;
    var g := s.hedges[h];
    var x := final - g.venue.executed;
    var step := Trade(h, x, NextFill(g, x));
    InvHedge(s, h);
    NextFillAllowed(h, g, x);
    TradeStep(s, h, x);
    FreeStep(s, step, goal, regime);
    var u := Next(s, step);
    if u.hedges[h].venue.phase.Open? {
      t := CloseOver(u, h, plan, goal, regime);
    } else {
      t := u;
      EndedOver(t, h, plan);
    }
  }

  /** An order that is on its way is accepted, and ends at once with nothing executed. */
  lemma InFlightOver(s: Sys, h: nat, plan: Plan, goal: Goal, regime: Regime) returns (t: Sys)
    requires Inv(s) && h < |s.hedges| && s.hedges[h].venue.InFlight?
    ensures OrderOver(s, t, h, plan) && (Can(t, goal, regime) ==> Can(s, goal, regime))
  {
    hide Inv, Can, Next, Enabled, HedgeInv, ReplyError, Readable;
    AcceptStep(s, h);
    var u := Next(s, Accept(h, 1));
    FreeStep(s, Accept(h, 1), goal, regime);
    InvHedge(u, h);
    NothingYet(h, u.hedges[h], plan);
    t := CloseOver(u, h, plan, goal, regime);
  }

  lemma AcceptStep(s: Sys, h: nat)
    requires h < |s.hedges| && s.hedges[h].venue.InFlight?
    ensures var step := Accept(h, 1);
            && Enabled(s, step)
            && Next(s, step).workers == s.workers && |Next(s, step).hedges| == |s.hedges|
            && Next(s, step).hedges[h] == s.hedges[h].(venue := FreshOrder(1))
  {
  }

  lemma InvWorker(s: Sys, w: nat, h: nat)
    requires Inv(s) && AtWork(s, w, h)
    ensures WorkerOk(w, s.workers[w], s.hedges[h]) && HedgeInv(h, s.hedges[h])
  {
    assert WorkerBound(w, s.workers[w], s.hedges);
    HedgeAt(s.hedges, h);
  }

  lemma InvHedge(s: Sys, h: nat)
    requires Inv(s) && h < |s.hedges|
    ensures HedgeInv(h, s.hedges[h])
  {
    HedgeAt(s.hedges, h);
  }

  lemma NothingYet(h: nat, g: Hedge, plan: Plan)
    requires HedgeInv(h, g) && g.venue.Order? && g.venue.executed == 0 && g.venue.phase.Open?
    ensures g.calls != [] && g.calls[0].SubmitCall? && Readable(plan, 0, g.calls[0].quantity)
  {
    WithinAmount(h, g);
    hide HedgeInv;
  }

  /** A worker that stands before the submit call sends the order. */
  lemma SubmitStep(s: Sys, v: nat, h: nat)
    requires h < |s.hedges| && v < |s.workers| && AboutToSubmit(s.workers[v], h)
    ensures var step := Submit(v);
            var t := Next(s, step);
            && Enabled(s, step)
            && |t.hedges| == |s.hedges| && t.hedges[h].row == s.hedges[h].row && t.hedges[h].venue.InFlight?
            && t.workers == s.workers[v := s.workers[v].(pc := AwaitingSubmit)]
  {
  }

  lemma OrderLeadsOver(s: Sys, h: nat, plan: Plan, goal: Goal, regime: Regime) returns (t: Sys)
    requires Inv(s) && h < |s.hedges| && OrderLeads(s, h, plan)
    ensures OrderOver(s, t, h, plan) && (Can(t, goal, regime) ==> Can(s, goal, regime))
  {
    hide Inv, Can, ReplyError, Next, Enabled;
    match s.hedges[h].venue
    case InFlight => t := InFlightOver(s, h, plan, goal, regime);
    case NoOrder =>
      var v :| 0 <= v < |s.workers| && AboutToSubmit(s.workers[v], h);
      SubmitStep(s, v, h);
      FreeStep(s, Submit(v), goal, regime);
      t := InFlightOver(Next(s, Submit(v)), h, plan, goal, regime);
    case Order(_, phase, _, _, _, _) =>
      if phase.Open? { t := OpenOver(s, h, plan, goal, regime); } else { t := s; EndedOver(s, h, plan); }
  }

  // ---------------------------------------------------------------- lease holders

  /** A rejected submission ends its hedge when the worker that holds the lease hears of it. */
  lemma RejectedEnds(s: Sys, w: nat, h: nat, regime: Regime)
    requires Inv(s) && AtWork(s, w, h) && s.workers[w].Running? && s.workers[w].pc.AwaitingSubmit?
    requires s.hedges[h].venue.Rejected?
    ensures Can(s, Ends(h), regime)
  {
    HearerAt(s, w, h);
    hide Inv, Can, Next, Enabled;
    var step := SubmitReply(w, Refusal(VenueError(VenueCode(0), false, None)));
    RejectionStep(s, w, h);
    FreeStep(s, step, Ends(h), regime);
    FailingEnds(Next(s, step), w, h, regime);
  }

  lemma RejectionStep(s: Sys, w: nat, h: nat)
    requires AtWork(s, w, h) && s.workers[w].Running? && s.workers[w].pc.AwaitingSubmit?
    requires s.hedges[h].venue.Rejected? && !s.workers[w].job.submissionAttempted
    ensures var step := SubmitReply(w, Refusal(VenueError(VenueCode(0), false, None)));
            && Enabled(s, step)
            && AtWork(Next(s, step), w, h)
            && Next(s, step).workers[w].Closing? && Next(s, step).workers[w].end.Failing?
  {
  }

  lemma SubmittingEnds(s: Sys, w: nat, h: nat, regime: Regime)
    requires Inv(s) && AtWork(s, w, h) && AboutToSubmit(s.workers[w], h)
    ensures Can(s, Ends(h), regime)
  {
    hide Inv, Can, Next, Enabled;
    SubmitStep(s, w, h);
    FreeStep(s, Submit(w), Ends(h), regime);
    var t := Next(s, Submit(w));
    RejectStep(t, h);
    FreeStep(t, Reject(h), Ends(h), regime);
    RejectedEnds(Next(t, Reject(h)), w, h, regime);
  }

  lemma RejectStep(s: Sys, h: nat)
    requires h < |s.hedges| && s.hedges[h].venue.InFlight?
    ensures Enabled(s, Reject(h)) && Next(s, Reject(h)).workers == s.workers
    ensures |Next(s, Reject(h)).hedges| == |s.hedges| && Next(s, Reject(h)).hedges[h] == s.hedges[h].(venue := Rejected)
  {
  }

  /** Worker w goes on with an unattempted hedge: same row but for what its own statements write. */
  predicate Onwards(s: Sys, w: nat, h: nat, pc: Pc) {
    AtWork(s, w, h) && s.workers[w].Running? && s.workers[w].pc == pc && s.hedges[h].row.submissionAttemptedAt.None?
  }

  lemma AuthorizingEnds(s: Sys, w: nat, h: nat, regime: Regime)
    requires Inv(s) && Onwards(s, w, h, Authorizing)
    ensures Can(s, Ends(h), regime)
  {
    hide Inv, Can, Next, Enabled, HedgeInv, WorkerOk;
    CanonicalStep(s, w, h);
    FreeStep(s, SetCanonical(h, true), Ends(h), regime);
    var t := Next(s, SetCanonical(h, true));
    InvWorker(t, w, h);
    NotCanceled(h, t.hedges[h]);
    UnattemptedPc(w, t.workers[w], h, t.hedges[h]);
    AuthorizeStep(t, w, h);
    FreeStep(t, RunStatement(w, NoFault), Ends(h), regime);
    SubmittingEnds(Next(t, RunStatement(w, NoFault)), w, h, regime);
  }

  lemma CanonicalStep(s: Sys, w: nat, h: nat)
    requires Onwards(s, w, h, Authorizing)
    ensures Enabled(s, SetCanonical(h, true))
    ensures Onwards(Next(s, SetCanonical(h, true)), w, h, Authorizing)
    ensures Next(s, SetCanonical(h, true)).hedges[h].row.canonical
  {
  }

  lemma AuthorizeStep(s: Sys, w: nat, h: nat)
    requires Onwards(s, w, h, Authorizing) && s.hedges[h].row.canonical && s.hedges[h].row.cancelRequestedAt.None?
    requires s.hedges[h].row.route.Some?
    ensures var step := RunStatement(w, NoFault);
            && Enabled(s, step)
            && AtWork(Next(s, step), w, h) && AboutToSubmit(Next(s, step).workers[w], h)
  {
    hide CancelDue, Add;
  }

  lemma AskingEnds(s: Sys, w: nat, h: nat, regime: Regime)
    requires Inv(s) && Onwards(s, w, h, Querying)
    ensures Can(s, Ends(h), regime)
  {
    assert WorkerBound(w, s.workers[w], s.hedges);
    InvHedge(s, h);
    hide Inv, Can, Next, Enabled, HedgeInv;
    var step := QueryReply(w, Answer(None));
    NotFoundStep(s, w, h);
    FreeStep(s, step, Ends(h), regime);
    AuthorizingEnds(Next(s, step), w, h, regime);
  }

  lemma NotFoundStep(s: Sys, w: nat, h: nat)
    requires Onwards(s, w, h, Querying) && !s.workers[w].job.submissionAttempted
    ensures var step := QueryReply(w, Answer(None));
            Enabled(s, step) && Onwards(Next(s, step), w, h, Authorizing)
  {
  }

  lemma PreparingEnds(s: Sys, w: nat, h: nat, regime: Regime)
    requires Inv(s) && Onwards(s, w, h, Preparing) && FitsRoute(s.hedges[h].row, s.workers[w].plan)
    ensures Can(s, Ends(h), regime)
  {
    InvHedge(s, h);
    NotCanceled(h, s.hedges[h]);
    hide Inv, Can, Next, Enabled, HedgeInv;
    PrepareStep(s, w, h);
    FreeStep(s, RunStatement(w, NoFault), Ends(h), regime);
    AskingEnds(Next(s, RunStatement(w, NoFault)), w, h, regime);
  }

  lemma NotCanceled(h: nat, g: Hedge)
    requires HedgeInv(h, g) && g.row.submissionAttemptedAt.None?
    ensures g.row.cancelRequestedAt.None? && g.venue.NoOrder?
  {
    hide VenueInv, TradesInv, EvidenceInv, TerminalInv, FeeInv, PnlInv, PlanHedge, RouteFor, Quantize;
  }

  lemma PrepareStep(s: Sys, w: nat, h: nat)
    requires Onwards(s, w, h, Preparing) && FitsRoute(s.hedges[h].row, s.workers[w].plan)
    requires s.hedges[h].row.cancelRequestedAt.None?
    ensures var step := RunStatement(w, NoFault);
            && Enabled(s, step)
            && Onwards(Next(s, step), w, h, Querying)
  {
    hide CancelDue, Add;
  }

  lemma ValidatingEnds(s: Sys, w: nat, h: nat, regime: Regime)
    requires Inv(s) && Onwards(s, w, h, Validating) && FitsRoute(s.hedges[h].row, s.workers[w].plan)
    ensures Can(s, Ends(h), regime)
  {
    var step := ValidateReply(w, Answer(()));
    assert Enabled(s, step) && Follows(s, step, regime);
    InvNext(s, step);
    assert Next(s, step).hedges == s.hedges && Next(s, step).workers[w] == s.workers[w].(pc := Preparing);
    hide Next, Inv, Enabled, Follows;
    PreparingEnds(Next(s, step), w, h, regime);
    Before(s, step, Ends(h), regime);
  }

  /** The exchange's rules may come to refuse the order for good. */
  lemma RefusalEnds(s: Sys, w: nat, h: nat, setup: Setup)
    requires Inv(s) && Onwards(s, w, h, Validating) && !setup.rulesKept
    ensures Can(s, Ends(h), RouteKept(h, setup))
  {
    assert WorkerBound(w, s.workers[w], s.hedges);
    var step := ValidateReply(w, Refusal(VenueError(VenueCode(0), false, None)));
    assert Enabled(s, step) && Follows(s, step, RouteKept(h, setup));
    assert Next(s, step).hedges == s.hedges;
    assert Next(s, step).workers[w] == Closing(s.workers[w].job, Failing(VenueCode(0)));
    hide Next, Inv, Follows, Enabled;
    FailingEnds(Next(s, step), w, h, RouteKept(h, setup));
    Before(s, step, Ends(h), RouteKept(h, setup));
  }

  lemma UnattemptedHolderEnds(s: Sys, w: nat, h: nat, setup: Setup)
    requires Inv(s) && HolderCanEnd(s, w, h, setup.rulesKept)
    requires s.workers[w].Running? && s.hedges[h].row.submissionAttemptedAt.None?
    ensures Can(s, Ends(h), RouteKept(h, setup))
  {
    assert WorkerBound(w, s.workers[w], s.hedges);
    HedgeAt(s.hedges, h);
    NotCanceled(h, s.hedges[h]);
    UnattemptedPc(w, s.workers[w], h, s.hedges[h]);
    hide Inv, Can, HedgeInv, WorkerOk;
    match s.workers[w].pc
    case Validating =>
      if FitsRoute(s.hedges[h].row, s.workers[w].plan) { ValidatingEnds(s, w, h, RouteKept(h, setup)); }
      else { RefusalEnds(s, w, h, setup); }
    case Preparing => PreparingEnds(s, w, h, RouteKept(h, setup));
    case Querying => AskingEnds(s, w, h, RouteKept(h, setup));
    case Authorizing => AuthorizingEnds(s, w, h, RouteKept(h, setup));
  }

  /** Where the holder of an unattempted hedge can stand. */
  lemma UnattemptedPc(w: nat, worker: Worker, h: nat, g: Hedge)
    requires HedgeInv(h, g) && WorkerOk(w, worker, g) && worker.Running? && Owns(g.row, w)
    requires g.row.submissionAttemptedAt.None? && g.venue.NoOrder?
    ensures worker.pc.Validating? || worker.pc.Preparing? || worker.pc.Querying? || worker.pc.Authorizing?
    ensures worker.pc.Querying? || worker.pc.Authorizing? ==> g.row.route == Some(worker.plan.jobRoute)
  {
    hide VenueInv, TradesInv, EvidenceInv, TerminalInv, FeeInv, PnlInv, PlanHedge, RouteFor, Quantize;
  }

  lemma AttemptedHolderEnds(s: Sys, w: nat, h: nat, setup: Setup)
    requires Inv(s) && HolderCanEnd(s, w, h, setup.rulesKept)
    requires s.workers[w].Running? && s.hedges[h].row.submissionAttemptedAt.Some?
    ensures Can(s, Ends(h), RouteKept(h, setup))
  {
    var regime := RouteKept(h, setup);
    assert WorkerBound(w, s.workers[w], s.hedges);
    AttemptedPc(w, s.workers[w], h, s.hedges[h]);
    if s.workers[w].pc.Applying? {
      ApplyingEnds(s, w, h, regime);
    } else if AboutToSubmit(s.workers[w], h) {
      SubmittingEnds(s, w, h, regime);
    } else if s.workers[w].pc.AwaitingSubmit? && s.hedges[h].venue.Rejected? {
      RejectedEnds(s, w, h, regime);
    } else {
      hide Inv, Can, WorkerOk, ReplyError;
      var t := OrderLeadsOver(s, h, s.workers[w].plan, Ends(h), regime);
      assert Reads(t, w, h);
      ReaderEnds(t, w, h, regime);
    }
  }

  /** Where the holder of an attempted hedge can stand. */
  lemma AttemptedPc(w: nat, worker: Worker, h: nat, g: Hedge)
    requires WorkerOk(w, worker, g) && worker.Running? && Owns(g.row, w) && g.row.submissionAttemptedAt.Some?
    ensures !worker.pc.Validating? && !worker.pc.Preparing? && !worker.pc.Authorizing?
  {
    hide RouteFor, Quantize;
  }

  lemma HolderEnds(s: Sys, w: nat, h: nat, setup: Setup)
    requires Inv(s) && HolderCanEnd(s, w, h, setup.rulesKept)
    ensures Can(s, Ends(h), RouteKept(h, setup))
  {
    if s.workers[w].Closing? {
      FailingEnds(s, w, h, RouteKept(h, setup));
    } else {
      hide Inv, Can, HolderCanEnd;
      if s.hedges[h].row.submissionAttemptedAt.None? { UnattemptedHolderEnds(s, w, h, setup); }
      else { AttemptedHolderEnds(s, w, h, setup); }
    }
  }

  // ---------------------------------------------------------------- a later claim

  /** A time at which the row can be claimed. */
  function DueTime(r: Row, now: nat): nat {
    var a := if r.nextAttemptAt > now then r.nextAttemptAt else now;
    if r.lease.Some? && r.lease.value.expiresAt > a then r.lease.value.expiresAt else a
  }

  /** The first worker restarts, the settlement is canonical and the old lease has run out. */
  ghost predicate Ready(s: Sys, t: Sys, h: nat)
    requires h < |s.hedges|
  {
    && Inv(t)
    && |t.workers| > 0 && t.workers[0].Idle?
    && |t.hedges| == |s.hedges|
    && t.hedges[h] == WithRow(s.hedges[h], s.hedges[h].row.(canonical := true))
    && Claimable(t.hedges[h].row, t.now)
  }

  lemma MakeReady(s: Sys, h: nat, goal: Goal, regime: Regime) returns (t: Sys)
    requires Inv(s) && h < |s.hedges| && s.hedges[h].row.status.Queued? && |s.workers| > 0
    ensures Ready(s, t, h)
    ensures Can(t, goal, regime) ==> Can(s, goal, regime)
  {
    hide Inv, Can;
    var tick := Tick(DueTime(s.hedges[h].row, s.now));
    var s1 := Next(s, Crash(0));
    FreeStep(s, Crash(0), goal, regime);
    var s2 := Next(s1, tick);
    FreeStep(s1, tick, goal, regime);
    t := Next(s2, SetCanonical(h, true));
    FreeStep(s2, SetCanonical(h, true), goal, regime);
    assert t.hedges[h] == WithRow(s.hedges[h], s.hedges[h].row.(canonical := true));
  }

  /** The claim and what it leads to. */
  lemma ClaimStep(t: Sys, h: nat, setup: Setup)
    requires |t.workers| > 0 && t.workers[0].Idle? && h < |t.hedges| && Claimable(t.hedges[h].row, t.now)
    requires setup.config.Some? ==> setup.config.value.tokenDecimals == t.hedges[h].row.intent.tokenDecimals
    ensures var claim := Claim(0, h, 0, setup.config, setup.maxOrderAgeMs, NoFault);
            && Enabled(t, claim) && Follows(t, claim, RouteKept(h, setup))
            && var u := Next(t, claim);
               && AtWork(u, 0, h) && u.hedges[h].venue == t.hedges[h].venue && u.hedges[h].calls == t.hedges[h].calls
               && u.hedges[h].row.submissionAttemptedAt == t.hedges[h].row.submissionAttemptedAt
               && u.hedges[h].row.route == t.hedges[h].row.route
               && match PlanNow(h, t.hedges[h].row, setup)
                  case Refusal(e) => u.workers[0] == AfterError(u.workers[0].job, e)
                                     && u.workers[0].job.submissionAttempted == t.hedges[h].row.submissionAttemptedAt.Some?
                  case Answer(plan) =>
                    && u.workers[0].Running? && u.workers[0].plan == plan
                    && u.workers[0].pc == if t.hedges[h].row.submissionAttemptedAt.Some? then Querying else Validating
  {
    hide LimitPrice, Quantize;
  }

  lemma ClaimEnds(s: Sys, h: nat, setup: Setup)
    requires Inv(s) && h < |s.hedges| && s.hedges[h].row.status.Queued? && |s.workers| > 0
    requires setup.config.Some? ==> setup.config.value.tokenDecimals == s.hedges[h].row.intent.tokenDecimals
    requires ClaimCanEnd(s, h, setup)
    ensures Can(s, Ends(h), RouteKept(h, setup))
  {
    hide Inv, Can, Next, Enabled, Follows, MakePlan, ReplyError, OrderLeads;
    var regime := RouteKept(h, setup);
    var s' := s;
    if s.hedges[h].row.submissionAttemptedAt.Some? {
      s' := OrderLeadsOver(s, h, PlanNow(h, s.hedges[h].row, setup).value, Ends(h), regime);
    }
    var t := MakeReady(s', h, Ends(h), regime);
    PlanStays(h, s.hedges[h].row, setup);
    ClaimStep(t, h, setup);
    var claim := Claim(0, h, 0, setup.config, setup.maxOrderAgeMs, NoFault);
    InvNext(t, claim);
    var u := Next(t, claim);
    if s.hedges[h].row.submissionAttemptedAt.Some? {
      assert Reads(u, 0, h);
      ReaderEnds(u, 0, h, regime);
    } else {
      assert HolderCanEnd(u, 0, h, setup.rulesKept);
      HolderEnds(u, 0, h, setup);
    }
    Before(t, claim, Ends(h), regime);
  }

  lemma PlanStays(h: nat, r: Row, setup: Setup)
    ensures PlanNow(h, r.(canonical := true), setup) == PlanNow(h, r, setup)
  {
    hide LimitPrice, Quantize;
  }

  /** From every state of the invariant in which somebody can still end the hedge, some run ends it. */
  lemma StillEnds(s: Sys, h: nat, setup: Setup)
    requires Inv(s) && h < |s.hedges| && s.hedges[h].row.status.Queued? && |s.workers| > 0
    requires setup.config.Some? ==> setup.config.value.tokenDecimals == s.hedges[h].row.intent.tokenDecimals
    requires CanStillEnd(s, h, setup)
    ensures Can(s, Ends(h), RouteKept(h, setup))
  {
    hide Inv, Can, HolderCanEnd, ClaimCanEnd;
    if ClaimCanEnd(s, h, setup) {
      ClaimEnds(s, h, setup);
    } else {
      var w :| 0 <= w < |s.workers| && HolderCanEnd(s, w, h, setup.rulesKept);
      HolderEnds(s, w, h, setup);
    }
  }
}
