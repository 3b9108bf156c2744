/** When a finished hedge can still complete its fees, if the exchange tells the fee workers the truth: the
    protocol's use of the paginated trade history. */
module HedgeFeeProgress {
  import opened Arithmetic
  import opened HedgeRoute
  import opened HedgeNetPnl
  import opened HedgeRows
  import opened HedgeFills
  import opened HedgeWorker
  import opened HedgePlanner
  import opened HedgeMachine
  import opened HedgeInvariant
  import opened HedgeSafety
  import opened HedgeRegimes
  import opened HedgeProgress
  import opened BinanceTrades

  // ---------------------------------------------------------------- the condition

  /** The evidence can be reconciled: the adapter lists all trades of the order, and neither sum has more digits
      than decimalQuantitiesEqual reads. */
  predicate EvidenceFits(g: Hedge) {
    && g.row.filled.Some? && g.row.quote.Some? && g.venue.Order?
    && Listed(g.venue.trades, g.venue.id).Some?
    && Times(g.row.filled.value, Pow10(36 - g.row.intent.tokenDecimals)) < TEN_TO_78
    && g.row.quote.value < TEN_TO_78
  }

  predicate FeeAtWork(s: Sys, f: nat, h: nat) {
    && f < |s.feeWorkers| && h < |s.hedges|
    && s.feeWorkers[f].FeeRunning? && s.feeWorkers[f].job.hedge == h && FeeOwns(s.hedges[h].row, f)
  }

  /** The job was claimed with the evidence that the row has. */
  predicate JobCurrent(job: FeeJob, r: Row) {
    r.filled == Some(job.filled) && r.quote == Some(job.quote) && r.venueOrderId == Some(job.venueOrderId)
  }

  /** Fee worker f can go on to the commit, if the evidence fits. */
  predicate FeeHolderCan(s: Sys, f: nat, h: nat) {
    && FeeAtWork(s, f, h)
    && JobCurrent(s.feeWorkers[f].job, s.hedges[h].row)
    && match s.feeWorkers[f].pc
       case FeeQuerying(route) => s.feeWorkers[f].job.filled % route.stepSizeRaw == 0
       case FeeTrading(_) => true
       case FeeCommitting(_, _) => true
       case FeeReleasing(_, _) => false
  }

  /** A fee claim under this route passes the checks before the trades. */
  predicate FeeClaimCan(r: Row, config: Option<Route>) {
    && config.Some? && r.route.Some? && config.value.symbol == r.route.value.route.symbol
    && Or0(r.filled) % config.value.stepSizeRaw == 0
  }

  predicate SomeFeeHolder(s: Sys, h: nat) { exists f :: 0 <= f < |s.feeWorkers| && FeeHolderCan(s, f, h) }

  predicate FeesCanComplete(s: Sys, h: nat, config: Option<Route>)
    requires h < |s.hedges|
  {
    var g := s.hedges[h];
    g.row.fee.FeeComplete? || (EvidenceFits(g) && (SomeFeeHolder(s, h) || FeeClaimCan(g.row, config)))
  }

  // ---------------------------------------------------------------- finished hedges

  /** A finished hedge with a fill that is not reconciled yet. */
  predicate Reconcilable(h: nat, g: Hedge) {
    && g.row.fee.FeePending? && !g.row.status.Queued? && g.fills == []
    && g.row.route.Some? && g.row.route.value.route.quoteToken == g.row.intent.referenceToken
    && g.row.route.value.route.tokenDecimals == g.row.intent.tokenDecimals
    && HasEnded(g.venue) && TradesInv(g.venue, g.row.intent)
    && g.row.venueOrderId == Some(g.venue.id)
    && g.row.filled == Some(g.venue.executed) && 0 < g.venue.executed <= g.row.intent.amount
    && g.row.quote == Some(g.venue.quote) && 0 < g.venue.quote
  }

  lemma PendingReconcilable(h: nat, g: Hedge)
    requires HedgeInv(h, g) && !g.row.status.Queued? && g.row.filled.Some? && !g.row.fee.FeeComplete?
    ensures Reconcilable(h, g)
  {
    hide VenueInv, TradesInv, PnlInv, PlanHedge, LimitPrice, Quantize;
  }

  lemma {:induction false} ShorterSum(trades: seq<FillFields>, n: nat)
    requires forall i :: 0 <= i < |trades| ==> trades[i].quantity > 0
    requires n < |trades|
    ensures SumQuantity(trades[..n]) < SumQuantity(trades)
  {
    var before := trades[..|trades| - 1];
    assert before[..n] == trades[..n];
    if n < |before| { ShorterSum(before, n); } else { assert trades[..n] == before; }
  }

  /** Fills that were listed at some moment and sum to what the order has executed are all its trades. */
  lemma ListedAreAll(v: VenueOrder, intent: Intent, fills: seq<Fill>)
    requires TradesInv(v, intent) && ListedOnce(v, fills)
    requires SumQuantity(fills) == Times(v.executed, Pow10(36 - intent.tokenDecimals))
    ensures fills == v.trades && Listed(v.trades, v.id) == Some(fills)
  {
    var n :| 0 <= n <= |v.trades| && Listed(v.trades[..n], v.id) == Some(fills);
    if n < |v.trades| { ShorterSum(v.trades, n); }
    assert v.trades[..|v.trades|] == v.trades;
  }

  // ---------------------------------------------------------------- what truthful answers leave with a fee worker

  /** A fee worker's fills were the order's trades at some moment, and its sums are readable. */
  predicate FillsTrue(worker: FeeWorker, g: Hedge)
    requires worker.FeeRunning?
  {
    && (worker.pc.FeeTrading? ==> worker.pc.order.venueOrderId == worker.job.venueOrderId)
    && (worker.pc.FeeCommitting? ==>
          && worker.pc.order.venueOrderId == worker.job.venueOrderId
          && ListedOnce(g.venue, worker.pc.fills)
          && SumQuantity(worker.pc.fills) < TEN_TO_78 && SumQuote(worker.pc.fills) < TEN_TO_78)
  }

  predicate FeeWorkerTrue(worker: FeeWorker, hedges: seq<Hedge>, h: nat) {
    worker.FeeRunning? && worker.job.hedge == h ==> h < |hedges| && FillsTrue(worker, hedges[h])
  }

  predicate AllTrue(s: Sys, h: nat) {
    forall f :: 0 <= f < |s.feeWorkers| ==> FeeWorkerTrue(s.feeWorkers[f], s.hedges, h)
  }

  lemma ListedStays(v: VenueOrder, v': VenueOrder, fills: seq<Fill>)
    requires VenueAdvances(v, v') && ListedOnce(v, fills)
    ensures ListedOnce(v', fills)
  {
    var n :| 0 <= n <= |v.trades| && Listed(v.trades[..n], v.id) == Some(fills);
    assert v'.trades[..n] == v.trades[..n];
  }

  /** Only a fee worker's own step moves it. */
  lemma FeeOwnStep(s: Sys, step: Step, f: nat)
    requires Enabled(s, step) && f < |Next(s, step).feeWorkers|
    ensures f < |s.feeWorkers|
    ensures Next(s, step).feeWorkers[f] == s.feeWorkers[f] || (IsFeeStep(step) && step.f == f)
  {
    if IsJobStep(step) {
      hide Statement, AfterStatement, AfterClaim, AfterQuery, AfterOrder, AfterValidate, CancelDue, Honest, Claimable, Add,
        AwaitsStore;
    } else if IsFeeStep(step) {
      hide FeeEffect, AfterTrades, AfterFeeQuery, AfterFeeClaim, FeeClaimable, AfterFeeStatement;
    } else {
      hide PlanHedge, TradeAllowed, Settle, Add, Traded;
    }
  }

  lemma FeeStepTrue(s: Sys, step: Step, h: nat)
    requires Enabled(s, step) && IsFeeStep(step) && FeeReplyTruthful(s, step, h)
    requires step.f < |s.feeWorkers| && FeeWorkerTrue(s.feeWorkers[step.f], s.hedges, h)
    requires step.f < |Next(s, step).feeWorkers| && Next(s, step).feeWorkers[step.f] != s.feeWorkers[step.f]
    ensures FeeWorkerTrue(Next(s, step).feeWorkers[step.f], s.hedges, h)
  {
    if step.FeeTradesReply? {
      TradesTrue(s.feeWorkers[step.f].job, s.feeWorkers[step.f].pc.order, step.trades);
      hide AfterTrades, ListedOnce;
    } else {
      hide ListedOnce, FeeEffect, FeeClaimable;
      OtherAnswers(s, step);
    }
  }

  /** Only the answer to the trade query brings a worker to its commit. */
  lemma OtherAnswers(s: Sys, step: Step)
    requires Enabled(s, step) && IsFeeStep(step) && !step.FeeTradesReply?
    requires step.f < |Next(s, step).feeWorkers| && Next(s, step).feeWorkers[step.f] != s.feeWorkers[step.f]
    ensures var after := Next(s, step).feeWorkers[step.f];
            after.FeeRunning? ==>
              && after.job.hedge < |s.hedges| && !after.pc.FeeCommitting?
              && (after.pc.FeeTrading? ==> after.pc.order.venueOrderId == after.job.venueOrderId)
  {
    hide FeeEffect, FeeClaimable, Honest;
  }

  lemma TradesTrue(job: FeeJob, order: OrderReply, trades: Reply<seq<Fill>>)
    ensures var after := AfterTrades(job, order, trades);
            && after.FeeRunning? && after.job == job && (after.pc.FeeReleasing? || after.pc.FeeCommitting?)
            && (after.pc.FeeCommitting? ==>
                  && trades == Answer(after.pc.fills) && after.pc.order == order
                  && SumQuantity(after.pc.fills) < TEN_TO_78 && SumQuote(after.pc.fills) < TEN_TO_78)
  {
    hide SumQuantity, SumQuote, Times, Pow10;
  }

  lemma StepTrue(s: Sys, step: Step, h: nat)
    requires Inv(s) && AllTrue(s, h) && Enabled(s, step) && FeeReplyTruthful(s, step, h)
    ensures AllTrue(Next(s, step), h)
  {
    var t := Next(s, step);
    InvNext(s, step);
    hide Inv, Next, Enabled, FeeReplyTruthful;
    forall f | 0 <= f < |t.feeWorkers| ensures FeeWorkerTrue(t.feeWorkers[f], t.hedges, h) {
      FeeOwnStep(s, step, f);
      assert FeeWorkerTrue(s.feeWorkers[f], s.hedges, h);
      if t.feeWorkers[f] != s.feeWorkers[f] { FeeStepTrue(s, step, h); }
      TrueStays(t.feeWorkers[f], s.hedges, t.hedges, h);
    }
  }

  lemma TrueStays(worker: FeeWorker, hedges: seq<Hedge>, hedges': seq<Hedge>, h: nat)
    requires FeeWorkerTrue(worker, hedges, h) && HedgesAdvance(hedges, hedges')
    ensures FeeWorkerTrue(worker, hedges', h)
  {
    if worker.FeeRunning? && worker.job.hedge == h && worker.pc.FeeCommitting? {
      assert Advances(hedges[h], hedges'[h]);
      hide ListedOnce, VenueAdvances;
      ListedStays(hedges[h].venue, hedges'[h].venue, worker.pc.fills);
    }
  }

  lemma {:induction false} RunTrue(s: Sys, run: seq<Step>, h: nat)
    requires Inv(s) && AllTrue(s, h) && Legal(s, run) && Obeys(s, run, FeesTruthful(h))
    ensures AllTrue(After(s, run), h)
    decreases |run|
  {
    if run != [] {
      InvNext(s, run[0]);
      StepTrue(s, run[0], h);
      hide Inv, Next, Enabled, AllTrue;
      RunTrue(Next(s, run[0]), run[1..], h);
    }
  }

  // ---------------------------------------------------------------- completing the fees

  /** The commit of all trades is accepted. */
  lemma CommitAccepted(h: nat, g: Hedge, f: nat, job: FeeJob, order: OrderReply, fills: seq<Fill>)
    requires Reconcilable(h, g) && EvidenceFits(g) && FeeOwns(g.row, f) && JobCurrent(job, g.row)
    requires fills == g.venue.trades
    requires order.venueOrderId == job.venueOrderId && order.quote == job.quote
    ensures var out := CompleteReconciliation(g.row, g.fills, f, job.filled, order.venueOrderId, order.quote, fills);
            out.Ok? && out.value.row.fee.FeeComplete?
  {
    AllFills(h, g, fills);
    UpsertIntoEmpty(fills);
    hide SumQuantity, SumQuote, LatestExecution, ResidualQuote, TotalCharge, UpsertFills, UnvaluedAssets, Listed, TradesInv;
  }

  lemma AllFills(h: nat, g: Hedge, fills: seq<Fill>)
    requires Reconcilable(h, g) && EvidenceFits(g) && fills == g.venue.trades
    ensures SumQuantity(fills) == Times(g.venue.executed, Pow10(36 - g.row.intent.tokenDecimals)) < TEN_TO_78
    ensures SumQuote(fills) == g.venue.quote < TEN_TO_78
    ensures fills != [] && FillSetOk(fills, g.venue.id)
    ensures forall k :: 0 <= k < |fills| ==> fills[k].isBuyer == g.row.intent.side.Buy?
  {
    hide Times, Pow10;
    assert SumQuote([]) == 0;
  }

  lemma CommittingCompletes(s: Sys, f: nat, h: nat, regime: Regime)
    requires FeeAtWork(s, f, h) && Reconcilable(h, s.hedges[h]) && EvidenceFits(s.hedges[h])
    requires JobCurrent(s.feeWorkers[f].job, s.hedges[h].row) && s.feeWorkers[f].pc.FeeCommitting?
    requires var pc := s.feeWorkers[f].pc;
             && pc.order.venueOrderId == s.feeWorkers[f].job.venueOrderId && pc.order.quote == s.feeWorkers[f].job.quote
             && pc.fills == s.hedges[h].venue.trades
    ensures Can(s, CompletesFees(h), regime)
  {
    var worker := s.feeWorkers[f];
    CommitAccepted(h, s.hedges[h], f, worker.job, worker.pc.order, worker.pc.fills);
    hide EvidenceFits, Reconcilable, CompleteReconciliation;
    var step := FeeStatement(f, NoFault);
    assert Enabled(s, step) && Met(CompletesFees(h), Next(s, step));
    hide Next, Enabled, Can;
    Already(Next(s, step), CompletesFees(h), regime);
    BeforeFree(s, step, CompletesFees(h), regime);
  }

  lemma TradingCompletes(s: Sys, f: nat, h: nat, config: Option<Route>)
    requires FeeAtWork(s, f, h) && Reconcilable(h, s.hedges[h]) && EvidenceFits(s.hedges[h])
    requires JobCurrent(s.feeWorkers[f].job, s.hedges[h].row) && s.feeWorkers[f].pc.FeeTrading?
    requires s.feeWorkers[f].job.intent == s.hedges[h].row.intent
    requires var order := s.feeWorkers[f].pc.order;
             && order.venueOrderId == s.feeWorkers[f].job.venueOrderId
             && order.executed == s.feeWorkers[f].job.filled && order.quote == s.feeWorkers[f].job.quote
    ensures Can(s, CompletesFees(h), FeesKept(h, config))
  {
    var fills := Listed(s.hedges[h].venue.trades, s.hedges[h].venue.id).value;
    var step := FeeTradesReply(f, Answer(fills));
    TradesStep(s, f, h, config, fills);
    hide Next, Enabled, Can, Follows, EvidenceFits, Reconcilable;
    CommittingCompletes(Next(s, step), f, h, FeesKept(h, config));
    Before(s, step, CompletesFees(h), FeesKept(h, config));
  }

  lemma TradesStep(s: Sys, f: nat, h: nat, config: Option<Route>, fills: seq<Fill>)
    requires FeeAtWork(s, f, h) && Reconcilable(h, s.hedges[h]) && EvidenceFits(s.hedges[h])
    requires JobCurrent(s.feeWorkers[f].job, s.hedges[h].row) && s.feeWorkers[f].pc.FeeTrading?
    requires s.feeWorkers[f].job.intent == s.hedges[h].row.intent
    requires var order := s.feeWorkers[f].pc.order;
             order.executed == s.feeWorkers[f].job.filled && order.quote == s.feeWorkers[f].job.quote
    requires Listed(s.hedges[h].venue.trades, s.hedges[h].venue.id) == Some(fills)
    ensures var step := FeeTradesReply(f, Answer(fills));
            && Enabled(s, step) && Follows(s, step, FeesKept(h, config))
            && Next(s, step).hedges == s.hedges && f < |Next(s, step).feeWorkers|
            && Next(s, step).feeWorkers[f]
               == FeeRunning(s.feeWorkers[f].job, FeeCommitting(s.feeWorkers[f].pc.order, fills))
  {
    TradesAccepted(h, s.hedges[h], s.feeWorkers[f].job, s.feeWorkers[f].pc.order, fills);
    assert ListedOnce(s.hedges[h].venue, fills) by {
      assert s.hedges[h].venue.trades[..|s.hedges[h].venue.trades|] == s.hedges[h].venue.trades;
    }
    hide AfterTrades, ListedOnce, EvidenceFits, Reconcilable, Listed;
  }

  lemma TradesAccepted(h: nat, g: Hedge, job: FeeJob, order: OrderReply, fills: seq<Fill>)
    requires Reconcilable(h, g) && EvidenceFits(g) && JobCurrent(job, g.row) && job.intent == g.row.intent
    requires order.executed == job.filled && order.quote == job.quote
    requires fills == g.venue.trades
    ensures AfterTrades(job, order, Answer(fills)) == FeeRunning(job, FeeCommitting(order, fills))
  {
    AllFills(h, g, fills);
    hide SumQuantity, SumQuote, Times, Pow10, FillSetOk, TradesInv, Listed;
    assert forall x :: x in fills ==> x.isBuyer == g.row.intent.side.Buy?;
  }

  lemma FeeQueryingCompletes(s: Sys, f: nat, h: nat, config: Option<Route>)
    requires FeeAtWork(s, f, h) && Reconcilable(h, s.hedges[h]) && EvidenceFits(s.hedges[h])
    requires FeeHolderCan(s, f, h) && s.feeWorkers[f].pc.FeeQuerying?
    requires s.feeWorkers[f].job.intent == s.hedges[h].row.intent
    ensures Can(s, CompletesFees(h), FeesKept(h, config))
  {
    var step := FeeQueryReply(f, Answer(Some(FinalReport(s.hedges[h].venue))));
    FeeQueryStep(s, f, h, config);
    hide Next, Enabled, Can, Follows, EvidenceFits, Reconcilable;
    TradingCompletes(Next(s, step), f, h, config);
    Before(s, step, CompletesFees(h), FeesKept(h, config));
  }

  lemma FeeQueryStep(s: Sys, f: nat, h: nat, config: Option<Route>)
    requires FeeAtWork(s, f, h) && Reconcilable(h, s.hedges[h]) && EvidenceFits(s.hedges[h])
    requires FeeHolderCan(s, f, h) && s.feeWorkers[f].pc.FeeQuerying?
    ensures var report := FinalReport(s.hedges[h].venue);
            var step := FeeQueryReply(f, Answer(Some(report)));
            && Enabled(s, step) && Follows(s, step, FeesKept(h, config))
            && Next(s, step).hedges == s.hedges && f < |Next(s, step).feeWorkers|
            && Next(s, step).feeWorkers[f] == FeeRunning(s.feeWorkers[f].job, FeeTrading(report))
            && report.venueOrderId == s.feeWorkers[f].job.venueOrderId
            && report.executed == s.feeWorkers[f].job.filled && report.quote == s.feeWorkers[f].job.quote
  {
    hide TradesInv, Listed, Times, Pow10;
  }

  lemma FeeHolderCompletes(s: Sys, f: nat, h: nat, config: Option<Route>)
    requires Inv(s) && AllTrue(s, h) && FeeHolderCan(s, f, h)
    requires Reconcilable(h, s.hedges[h]) && EvidenceFits(s.hedges[h])
    ensures Can(s, CompletesFees(h), FeesKept(h, config))
  {
    var worker := s.feeWorkers[f];
    assert FeeBound(worker, s.hedges) && FeeWorkerTrue(worker, s.hedges, h);
    hide Inv, AllTrue, Can, EvidenceFits;
    match worker.pc
    case FeeQuerying(_) => FeeQueryingCompletes(s, f, h, config);
    case FeeTrading(_) => TradingCompletes(s, f, h, config);
    case FeeCommitting(_, fills) =>
      ListedAreAll(s.hedges[h].venue, s.hedges[h].row.intent, fills);
      CommittingCompletes(s, f, h, FeesKept(h, config));
  }

  function FeeDueTime(r: Row, now: nat): nat {
    var a := if r.feeNextAttemptAt > now then r.feeNextAttemptAt else now;
    if r.feeLease.Some? && r.feeLease.value.expiresAt > a then r.feeLease.value.expiresAt else a
  }

  /** The first fee worker restarts, the lease has run out, and it claims the hedge. */
  lemma FeeClaimCompletes(s: Sys, h: nat, config: Option<Route>)
    requires Inv(s) && h < |s.hedges| && |s.feeWorkers| > 0
    requires Reconcilable(h, s.hedges[h]) && EvidenceFits(s.hedges[h]) && FeeClaimCan(s.hedges[h].row, config)
    requires config.Some? ==> config.value.tokenDecimals == s.hedges[h].row.intent.tokenDecimals
    ensures Can(s, CompletesFees(h), FeesKept(h, config))
  {
    var goal, regime := CompletesFees(h), FeesKept(h, config);
    var tick := Tick(FeeDueTime(s.hedges[h].row, s.now));
    var claim := FeeClaim(0, h, 0, config, NoFault);
    hide Inv, Can, EvidenceFits, Reconcilable, FeeClaimCan;
    FeeReady(s, h);
    FreeStep(s, FeeCrash(0), goal, regime);
    var s1 := Next(s, FeeCrash(0));
    FreeStep(s1, tick, goal, regime);
    var s2 := Next(s1, tick);
    FeeClaimStep(s2, h, config);
    var u := Next(s2, claim);
    hide Next, Enabled, Follows;
    ClaimKeepsEvidence(h, s.hedges[h], u.hedges[h], s2.now);
    FeeQueryingCompletes(u, 0, h, config);
    Before(s2, claim, goal, regime);
  }

  lemma FeeReady(s: Sys, h: nat)
    requires h < |s.hedges| && |s.feeWorkers| > 0 && Reconcilable(h, s.hedges[h])
    ensures var tick := Tick(FeeDueTime(s.hedges[h].row, s.now));
            && Enabled(s, FeeCrash(0)) && Enabled(Next(s, FeeCrash(0)), tick)
            && var t := Next(Next(s, FeeCrash(0)), tick);
               && t.hedges == s.hedges && |t.feeWorkers| > 0 && t.feeWorkers[0].FeeIdle?
               && FeeClaimable(t.hedges[h].row, t.now)
  {
    hide TradesInv;
  }

  lemma FeeClaimStep(s: Sys, h: nat, config: Option<Route>)
    requires h < |s.hedges| && |s.feeWorkers| > 0 && s.feeWorkers[0].FeeIdle? && FeeClaimable(s.hedges[h].row, s.now)
    requires Reconcilable(h, s.hedges[h]) && FeeClaimCan(s.hedges[h].row, config)
    requires config.Some? ==> config.value.tokenDecimals == s.hedges[h].row.intent.tokenDecimals
    ensures var claim := FeeClaim(0, h, 0, config, NoFault);
            && Enabled(s, claim) && Follows(s, claim, FeesKept(h, config))
            && var t := Next(s, claim);
               && FeeHolderCan(t, 0, h) && t.feeWorkers[0].pc.FeeQuerying?
               && t.feeWorkers[0].job.intent == t.hedges[h].row.intent
               && t.hedges[h] == WithRow(s.hedges[h], FeeClaimRow(s.hedges[h].row, 0, s.now, 0))
  {
    hide TradesInv;
  }

  lemma ClaimKeepsEvidence(h: nat, g: Hedge, g': Hedge, now: nat)
    requires Reconcilable(h, g) && EvidenceFits(g)
    requires g' == WithRow(g, FeeClaimRow(g.row, 0, now, 0))
    ensures Reconcilable(h, g') && EvidenceFits(g')
  {
    hide TradesInv, Listed, Times, Pow10;
  }

  // ---------------------------------------------------------------- one step back

  /** Outside the fee protocol nothing happens to the row of a finished hedge. */
  lemma FinishedRow(s: Sys, step: Step, h: nat)
    requires Enabled(s, step) && !IsFeeStep(step) && h < |s.hedges| && !s.hedges[h].row.status.Queued?
    ensures h < |Next(s, step).hedges|
    ensures Next(s, step).hedges[h].row == s.hedges[h].row.(canonical := Next(s, step).hedges[h].row.canonical)
  {
    if step.RunStatement? {
      if s.workers[step.w].job.hedge == h {
        FinishedStatement(s.workers[step.w], step.w, s.hedges[h].row, s.now, s.retryDelayMs);
      }
      hide Statement, AfterStatement, CancelDue, Add, AwaitsStore;
    } else if IsJobStep(step) {
      FinishedJobRow(s, step, h);
    } else {
      hide PlanHedge, TradeAllowed, Settle, Add, Traded;
    }
  }

  lemma FinishedStatement(worker: Worker, w: nat, r: Row, now: nat, retryDelayMs: nat)
    requires AwaitsStore(worker) && !r.status.Queued?
    ensures Statement(w, worker, r, now, retryDelayMs).Ok? ==> Statement(w, worker, r, now, retryDelayMs).value.row == r
  {
    hide ReplyError, RetryDelay, CheckFill, CheckEvidence;
  }

  lemma FinishedJobRow(s: Sys, step: Step, h: nat)
    requires Enabled(s, step) && IsJobStep(step) && !step.RunStatement? && h < |s.hedges|
    requires !s.hedges[h].row.status.Queued?
    ensures h < |Next(s, step).hedges| && Next(s, step).hedges[h].row == s.hedges[h].row
  {
    hide AfterClaim, AfterQuery, AfterOrder, AfterValidate, Honest;
  }

  /** The fee lease comes from a claim, and completion from a commit. */
  lemma FeeRowOrigin(s: Sys, step: Step, f: nat, h: nat)
    requires Enabled(s, step) && h < |s.hedges| && !s.hedges[h].row.status.Queued?
    ensures h < |Next(s, step).hedges|
    ensures FeeOwns(Next(s, step).hedges[h].row, f) ==>
              FeeOwns(s.hedges[h].row, f) || (step.FeeClaim? && step.f == f && step.h == h)
    ensures Next(s, step).hedges[h].row.fee.FeeComplete? && !s.hedges[h].row.fee.FeeComplete? ==>
              Commits(s, step, h)
  {
    if step.FeeStatement? {
      StatementRowOrigin(s, step, f, h);
    } else if IsFeeStep(step) {
      OtherRowOrigin(s, step, f, h);
    } else {
      FinishedRow(s, step, h);
      hide Next, Enabled;
    }
  }

  lemma StatementRowOrigin(s: Sys, step: Step, f: nat, h: nat)
    requires Enabled(s, step) && h < |s.hedges| && step.FeeStatement?
    ensures h < |Next(s, step).hedges|
    ensures FeeOwns(Next(s, step).hedges[h].row, f) ==> FeeOwns(s.hedges[h].row, f)
    ensures Next(s, step).hedges[h].row.fee.FeeComplete? && !s.hedges[h].row.fee.FeeComplete? ==> Commits(s, step, h)
  {
    FeeEffectRow(step.f, s.feeWorkers[step.f], s.hedges[s.feeWorkers[step.f].job.hedge], s.now, s.retryDelayMs);
    hide FeeEffect, AfterFeeStatement, CompleteReconciliation;
  }

  lemma OtherRowOrigin(s: Sys, step: Step, f: nat, h: nat)
    requires Enabled(s, step) && h < |s.hedges| && IsFeeStep(step) && !step.FeeStatement?
    ensures h < |Next(s, step).hedges|
    ensures FeeOwns(Next(s, step).hedges[h].row, f) ==>
              FeeOwns(s.hedges[h].row, f) || (step.FeeClaim? && step.f == f && step.h == h)
    ensures Next(s, step).hedges[h].row.fee == s.hedges[h].row.fee
  {
    if step.FeeClaim? {
      hide AfterFeeClaim, FeeClaimable, FeeJobOf;
    } else {
      AnswersAside(s, step);
      hide Next, Enabled, FeeOwns;
    }
  }

  lemma AnswersAside(s: Sys, step: Step)
    requires Enabled(s, step) && IsFeeStep(step) && !step.FeeStatement? && !step.FeeClaim?
    ensures Next(s, step).hedges == s.hedges
  {
    hide AfterTrades, AfterFeeQuery;
  }

  predicate Commits(s: Sys, step: Step, h: nat)
    requires Enabled(s, step) && h < |s.hedges|
  {
    && step.FeeStatement? && s.feeWorkers[step.f].job.hedge == h && s.feeWorkers[step.f].pc.FeeCommitting?
    && var worker := s.feeWorkers[step.f];
       CompleteReconciliation(s.hedges[h].row, s.hedges[h].fills, step.f, worker.job.filled, worker.pc.order.venueOrderId,
                              worker.pc.order.quote, worker.pc.fills).Ok?
  }

  lemma FeeEffectRow(f: nat, worker: FeeWorker, g: Hedge, now: nat, retryDelayMs: nat)
    requires worker.FeeRunning?
    ensures var out := FeeEffect(f, worker, g, now, retryDelayMs);
            out.Ok? ==>
              && (out.value.row.feeLease == g.row.feeLease || out.value.row.feeLease.None?)
              && (out.value.row.fee.FeePending? ==> g.row.fee.FeePending?)
              && (out.value.row.fee.FeeComplete? && !g.row.fee.FeeComplete? ==>
                    && worker.pc.FeeCommitting?
                    && CompleteReconciliation(g.row, g.fills, f, worker.job.filled, worker.pc.order.venueOrderId,
                                              worker.pc.order.quote, worker.pc.fills).Ok?)
  {
    hide FillSetOk, SumQuantity, SumQuote, SettledPnl, UpsertFills, RetryDelay;
  }

  /** A commit shows that the evidence fits and that its worker could commit. */
  lemma CommitBack(s: Sys, step: Step, h: nat)
    requires Inv(s) && AllTrue(s, h) && Enabled(s, step) && h < |s.hedges|
    requires !s.hedges[h].row.status.Queued? && !s.hedges[h].row.fee.FeeComplete? && Commits(s, step, h)
    ensures EvidenceFits(s.hedges[h]) && SomeFeeHolder(s, h)
  {
    var worker := s.feeWorkers[step.f];
    var g := s.hedges[h];
    InvHedge(s, h);
    assert FeeBound(worker, s.hedges) && FeeWorkerTrue(worker, s.hedges, h);
    CommitNeeds(g.row, g.fills, step.f, worker);
    hide Inv, AllTrue, Enabled, HedgeInv, CompleteReconciliation, Commits, FillsTrue, FeeWorkerOk, EvidenceFits, JobCurrent,
      Reconcilable;
    PendingReconcilable(h, g);
    CommitFits(h, g, step.f, worker);
    assert FeeHolderCan(s, step.f, h);
  }

  lemma CommitFits(h: nat, g: Hedge, f: nat, worker: FeeWorker)
    requires Reconcilable(h, g) && worker.FeeRunning? && worker.pc.FeeCommitting?
    requires FeeWorkerOk(worker, g) && FillsTrue(worker, g)
    requires g.row.filled == Some(worker.job.filled) && worker.job.intent == g.row.intent
    requires g.row.venueOrderId.Some? ==> g.row.venueOrderId.value == worker.pc.order.venueOrderId
    requires g.row.quote.Some? ==> g.row.quote.value == worker.pc.order.quote < TEN_TO_78
    ensures EvidenceFits(g) && JobCurrent(worker.job, g.row)
  {
    hide ListedOnce, TradesInv, SumQuantity, SumQuote, Times, Pow10, Listed;
    ListedAreAll(g.venue, g.row.intent, worker.pc.fills);
  }

  lemma CommitNeeds(r: Row, table: seq<Fill>, f: nat, worker: FeeWorker)
    requires worker.FeeRunning? && worker.pc.FeeCommitting?
    requires CompleteReconciliation(r, table, f, worker.job.filled, worker.pc.order.venueOrderId, worker.pc.order.quote,
                                    worker.pc.fills).Ok?
    ensures FeeOwns(r, f) && r.filled == Some(worker.job.filled) && r.route.Some?
    ensures r.venueOrderId.Some? ==> r.venueOrderId.value == worker.pc.order.venueOrderId
    ensures r.quote.Some? ==> r.quote.value == worker.pc.order.quote < TEN_TO_78
  {
    hide FillSetOk, SumQuantity, SumQuote, SettledPnl, UpsertFills;
  }

  /** Nothing about the evidence of a finished hedge changes. */
  lemma EvidenceBack(s: Sys, step: Step, h: nat)
    requires Inv(s) && Enabled(s, step) && h < |s.hedges| && h < |Next(s, step).hedges|
    requires !s.hedges[h].row.status.Queued? && !s.hedges[h].row.fee.FeeComplete?
    requires EvidenceFits(Next(s, step).hedges[h])
    ensures EvidenceFits(s.hedges[h]) && Reconcilable(h, s.hedges[h])
    ensures var r, r' := s.hedges[h].row, Next(s, step).hedges[h].row;
            r'.filled == r.filled && r'.quote == r.quote && r'.venueOrderId == r.venueOrderId && r'.route == r.route
  {
    InvNext(s, step);
    InvHedge(s, h);
    hide Inv, Next, Enabled, HedgeInv;
    assert Advances(s.hedges[h], Next(s, step).hedges[h]);
    PendingReconcilable(h, s.hedges[h]);
    hide TradesInv, Listed, Times, Pow10;
  }

  /** Where a fee worker's program counter comes from. */
  lemma FeePcOrigin(s: Sys, step: Step, f: nat, h: nat)
    requires Enabled(s, step) && IsFeeStep(step) && step.f == f && f < |Next(s, step).feeWorkers|
    requires h < |s.hedges| && Next(s, step).feeWorkers[f] != s.feeWorkers[f]
    requires Next(s, step).feeWorkers[f].FeeRunning? && Next(s, step).feeWorkers[f].job.hedge == h
    requires !Next(s, step).feeWorkers[f].pc.FeeReleasing?
    ensures f < |s.feeWorkers|
    ensures var worker, after := s.feeWorkers[f], Next(s, step).feeWorkers[f];
            if step.FeeClaim? then
              && step.h == h && step.config.Some?
              && after.job == FeeJobOf(h, FeeClaimRow(s.hedges[h].row, f, s.now, step.leaseMs))
              && step.config.value.symbol == after.job.symbol && after.pc == FeeQuerying(step.config.value)
            else
              && worker.FeeRunning? && after.job == worker.job && !worker.pc.FeeReleasing?
              && (worker.pc.FeeQuerying? ==> worker.job.filled % worker.pc.route.stepSizeRaw == 0)
  {
    if step.FeeTradesReply? {
      TradesTrue(s.feeWorkers[f].job, s.feeWorkers[f].pc.order, step.trades);
      hide AfterTrades;
    } else if step.FeeClaim? {
      ClaimPcOrigin(s, step, h);
    } else {
      hide FeeEffect, Honest;
    }
  }

  lemma ClaimPcOrigin(s: Sys, step: Step, h: nat)
    requires Enabled(s, step) && step.FeeClaim? && h < |s.hedges|
    requires Next(s, step).feeWorkers[step.f] != s.feeWorkers[step.f] && Next(s, step).feeWorkers[step.f].FeeRunning?
    requires Next(s, step).feeWorkers[step.f].job.hedge == h && !Next(s, step).feeWorkers[step.f].pc.FeeReleasing?
    ensures step.h == h && step.config.Some?
    ensures var after := Next(s, step).feeWorkers[step.f];
            && after.job == FeeJobOf(h, FeeClaimRow(s.hedges[h].row, step.f, s.now, step.leaseMs))
            && step.config.value.symbol == after.job.symbol && after.pc == FeeQuerying(step.config.value)
  {
    hide FeeClaimable;
  }

  lemma FeeHolderBack(s: Sys, step: Step, f: nat, h: nat, config: Option<Route>)
    requires Inv(s) && Enabled(s, step) && Follows(s, step, FeesKept(h, config))
    requires h < |s.hedges| && h < |Next(s, step).hedges|
    requires !s.hedges[h].row.status.Queued? && !s.hedges[h].row.fee.FeeComplete?
    requires EvidenceFits(Next(s, step).hedges[h]) && FeeHolderCan(Next(s, step), f, h)
    ensures SomeFeeHolder(s, h) || FeeClaimCan(s.hedges[h].row, config)
  {
    hide Inv, Next, Enabled, EvidenceFits, FeeOwns;
    EvidenceBack(s, step, h);
    FeeRowOrigin(s, step, f, h);
    FeeOwnStep(s, step, f);
    if Next(s, step).feeWorkers[f] == s.feeWorkers[f] {
      StillFeeOwns(s, step, f, h);
      assert FeeHolderCan(s, f, h);
    } else {
      FeePcOrigin(s, step, f, h);
      if !step.FeeClaim? { assert FeeHolderCan(s, f, h); }
    }
  }

  /** A claim that reaches its worker moves it, and one that does not leaves it idle. */
  lemma StillFeeOwns(s: Sys, step: Step, f: nat, h: nat)
    requires Enabled(s, step) && h < |s.hedges| && !s.hedges[h].row.status.Queued? && FeeAtWork(Next(s, step), f, h)
    requires f < |s.feeWorkers| && Next(s, step).feeWorkers[f] == s.feeWorkers[f]
    ensures FeeOwns(s.hedges[h].row, f)
  {
    FeeRowOrigin(s, step, f, h);
    if step.FeeClaim? && step.f == f {
      assert false by { hide AfterFeeClaim, FeeOwns; }
    }
    assert FeeOwns(Next(s, step).hedges[h].row, f) by { hide Next; }
    hide Next, Enabled, FeeOwns;
  }

  lemma FeesBack(s: Sys, step: Step, h: nat, config: Option<Route>)
    requires Inv(s) && AllTrue(s, h) && Enabled(s, step) && Follows(s, step, FeesKept(h, config))
    requires h < |s.hedges| && h < |Next(s, step).hedges| && !s.hedges[h].row.status.Queued?
    requires FeesCanComplete(Next(s, step), h, config)
    ensures FeesCanComplete(s, h, config)
  {
    hide Inv, AllTrue, Next, Enabled, Follows, EvidenceFits, FeeHolderCan, FeeClaimCan;
    if s.hedges[h].row.fee.FeeComplete? {
    } else if Next(s, step).hedges[h].row.fee.FeeComplete? {
      FeeRowOrigin(s, step, 0, h);
      CommitBack(s, step, h);
    } else {
      EvidenceBack(s, step, h);
      if SomeFeeHolder(Next(s, step), h) {
        var f :| 0 <= f < |Next(s, step).feeWorkers| && FeeHolderCan(Next(s, step), f, h);
        FeeHolderBack(s, step, f, h, config);
      } else {
        ClaimRuleBack(s.hedges[h].row, Next(s, step).hedges[h].row, config);
      }
    }
  }

  lemma ClaimRuleBack(r: Row, r': Row, config: Option<Route>)
    requires FeeClaimCan(r', config) && r'.route == r.route && r'.filled == r.filled
    ensures FeeClaimCan(r, config)
  {
  }

  lemma {:induction false} FeesOnlyIf(s: Sys, run: seq<Step>, h: nat, config: Option<Route>)
    requires Inv(s) && AllTrue(s, h) && h < |s.hedges| && !s.hedges[h].row.status.Queued?
    requires Legal(s, run) && Obeys(s, run, FeesKept(h, config)) && Met(CompletesFees(h), After(s, run))
    ensures FeesCanComplete(s, h, config)
    decreases |run|
  {
    if run != [] {
      var step := run[0];
      StaysFinished(s, step, h);
      InvNext(s, step);
      StepTrue(s, step, h);
      hide Inv, AllTrue, Next, Enabled, FeesCanComplete;
      FeesOnlyIf(Next(s, step), run[1..], h, config);
      FeesBack(s, step, h, config);
    }
  }

  lemma StaysFinished(s: Sys, step: Step, h: nat)
    requires Inv(s) && Enabled(s, step) && h < |s.hedges| && !s.hedges[h].row.status.Queued?
    ensures h < |Next(s, step).hedges| && !Next(s, step).hedges[h].row.status.Queued?
  {
    InvNext(s, step);
    hide Inv, Next, Enabled;
    assert Advances(s.hedges[h], Next(s, step).hedges[h]);
  }

  // ---------------------------------------------------------------- the exact condition

  /** If the exchange has told the fee workers of a finished hedge the truth and goes on to, and every fee claim
      reads the same route, its fees can complete exactly when they are complete, or the evidence fits and a
      fee worker is on its way with it or can claim it: a recorded fill within the digit limits, fewer than
      100000 trades that each parse, the last not a full page's end under the greatest safe id, and a route of
      the stored symbol whose step divides the fill. */
  lemma FeesCompleteExactly(s: Sys, before: seq<Step>, h: nat, config: Option<Route>)
    requires Initial(s) && Legal(s, before) && Obeys(s, before, FeesTruthful(h)) && |s.feeWorkers| > 0
    requires h < |After(s, before).hedges| && !After(s, before).hedges[h].row.status.Queued?
    requires config.Some? ==> config.value.tokenDecimals == After(s, before).hedges[h].row.intent.tokenDecimals
    ensures Can(After(s, before), CompletesFees(h), FeesKept(h, config))
            <==> FeesCanComplete(After(s, before), h, config)
  {
    var t := After(s, before);
    InitialInv(s);
    RunInv(s, before);
    assert AllTrue(s, h);
    RunTrue(s, before, h);
    WorkersStayThere(s, before);
    hide Initial, Legal, After, Obeys, Inv, AllTrue, FeesCanComplete;
    if Can(t, CompletesFees(h), FeesKept(h, config)) {
      var run :| Legal(t, run) && Obeys(t, run, FeesKept(h, config)) && Met(CompletesFees(h), After(t, run));
      FeesOnlyIf(t, run, h, config);
    }
    if FeesCanComplete(t, h, config) { FeesIf(t, h, config); }
  }

  /** While fee claims read the stored route, the fees of a filled hedge can complete exactly when they are
      complete or the evidence fits. */
  lemma FilledFeesCompleteExactly(s: Sys, before: seq<Step>, h: nat)
    requires Initial(s) && Legal(s, before) && Obeys(s, before, FeesTruthful(h)) && |s.feeWorkers| > 0
    requires h < |After(s, before).hedges| && After(s, before).hedges[h].row.status.Filled?
    ensures var g := After(s, before).hedges[h];
            && g.row.route.Some?
            && (Can(After(s, before), CompletesFees(h), FeesKept(h, Some(g.row.route.value.route)))
                <==> g.row.fee.FeeComplete? || EvidenceFits(g))
  {
    var t := After(s, before);
    InitialInv(s);
    RunInv(s, before);
    InvHedge(t, h);
    FilledOnStep(h, t.hedges[h]);
    hide Initial, Legal, After, Obeys, Inv, HedgeInv, Can, EvidenceFits, SomeFeeHolder;
    FeesCompleteExactly(s, before, h, Some(t.hedges[h].row.route.value.route));
  }

  lemma FilledOnStep(h: nat, g: Hedge)
    requires HedgeInv(h, g) && g.row.status.Filled?
    ensures g.row.route.Some? && g.row.route.value.route.tokenDecimals == g.row.intent.tokenDecimals
    ensures Or0(g.row.filled) % g.row.route.value.route.stepSizeRaw == 0
  {
    WithinAmount(h, g);
    FullInSteps(h, g);
    hide CallInv, VenueInv, TradesInv, EvidenceInv, FeeInv, PnlInv, PlanHedge, LimitPrice, Quantize;
  }

  lemma FeesIf(t: Sys, h: nat, config: Option<Route>)
    requires Inv(t) && AllTrue(t, h) && |t.feeWorkers| > 0
    requires h < |t.hedges| && !t.hedges[h].row.status.Queued? && FeesCanComplete(t, h, config)
    requires config.Some? ==> config.value.tokenDecimals == t.hedges[h].row.intent.tokenDecimals
    ensures Can(t, CompletesFees(h), FeesKept(h, config))
  {
    hide Inv, AllTrue, Can, FeeHolderCan, FeeClaimCan;
    if t.hedges[h].row.fee.FeeComplete? {
      Already(t, CompletesFees(h), FeesKept(h, config));
    } else {
      InvHedge(t, h);
      PendingReconcilable(h, t.hedges[h]);
      hide HedgeInv, EvidenceFits;
      if SomeFeeHolder(t, h) {
        var f :| 0 <= f < |t.feeWorkers| && FeeHolderCan(t, f, h);
        FeeHolderCompletes(t, f, h, config);
      } else {
        FeeClaimCompletes(t, h, config);
      }
    }
  }
}
