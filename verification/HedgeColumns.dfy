/** What the larger statements require and write, column by column: recordExecutionProgress, completeTerminal,
    completeReconciliation with its net PnL, and what the worker plans and accepts. */
module HedgeColumns {
  import opened Arithmetic
  import opened HedgeRoute
  import opened HedgeNetPnl
  import opened HedgeRows
  import opened HedgeFills
  import opened HedgeWorker

  // ---------------------------------------------------------------- evidence

  /** A cumulative report (filled, quote) may follow the recorded one: within the amount, never less, and the
      quote rises exactly when the fill rises. */
  predicate MayFollow(r: Row, filled: nat, quote: nat) {
    && filled <= r.intent.amount
    && (r.filled.Some? ==> r.filled.value <= filled)
    && (r.quote.Some? ==>
          && r.quote.value <= quote
          && (r.quote.value < quote <==> r.filled != Some(filled)))
  }

  /** recordExecutionProgress writes evidence and order identity of a held row exactly when the report may follow
      the recorded one and the identity agrees with the stored one; the inventory moves by what the fill rose. */
  lemma ProgressColumns(r: Row, w: WorkerId, now: nat, external: HedgeId, venueOrder: nat, filled: nat, quote: nat)
    ensures var out := RecordProgress(r, w, now, external, venueOrder, filled, quote);
            && (out.Ok? <==>
                  && filled > 0 && quote > 0
                  && r.status.Queued? && r.lease.Some? && r.lease.value.owner == w
                  && MayFollow(r, filled, quote)
                  && (r.externalOrderId.None? || r.externalOrderId.value == external)
                  && (r.venueOrderId.None? || r.venueOrderId.value == venueOrder))
            && (out.Ok? ==>
                  && out.value.row == r.(
                       submissionAttemptedAt := if r.submissionAttemptedAt.None? then Some(now) else r.submissionAttemptedAt,
                       externalOrderId := Some(external), venueOrderId := Some(venueOrder),
                       filled := Some(filled), quote := Some(quote), fee := FeePending, feeNextAttemptAt := now)
                  && var rise := filled - (if r.filled.Some? then r.filled.value else 0);
                     out.value.delta == if r.intent.side.Buy? then rise else -rise)
  {
  }

  /** completeTerminal ends a held row exactly when its evidence, if any, may follow the recorded one, its identity
      agrees with the stored one, recorded evidence does not disappear and a filled hedge has a route. */
  lemma TerminalColumns(r: Row, w: WorkerId, now: nat, status: Status, code: Option<ErrorCode>,
                        ids: Option<OrderIds>, evidence: Option<Evidence>)
    requires !status.Queued?
    ensures var out := CompleteTerminal(r, w, now, status, code, ids, evidence);
            && (out.Ok? <==>
                  && r.status.Queued? && r.lease.Some? && r.lease.value.owner == w
                  && (evidence.Some? ==>
                        && ids.Some? && evidence.value.filled > 0 && evidence.value.quote > 0
                        && MayFollow(r, evidence.value.filled, evidence.value.quote))
                  && (ids.Some? ==>
                        && (r.externalOrderId.None? || r.externalOrderId.value == ids.value.external)
                        && (r.venueOrderId.None? || r.venueOrderId.value == ids.value.venueOrder)
                        && (r.filled.Some? ==> evidence.Some?))
                  && (status.Filled? ==> r.route.Some?))
            && (out.Ok? ==> EndedRow(r, out.value.row, now, status, code, ids, evidence))
            && (out.Ok? ==>
                  var rise := if evidence.None? then 0
                              else evidence.value.filled - (if r.filled.Some? then r.filled.value else 0);
                  out.value.delta == if r.intent.side.Buy? then rise else -rise)
  {
  }

  /** Every column of the ended row. */
  predicate EndedRow(r: Row, r': Row, now: nat, status: Status, code: Option<ErrorCode>, ids: Option<OrderIds>,
                     evidence: Option<Evidence>) {
    && r'.status == status && r'.lease.None? && r'.lastError == code
    && (ids.Some? ==> r'.externalOrderId == Some(ids.value.external) && r'.venueOrderId == Some(ids.value.venueOrder))
    && (ids.None? ==> r'.externalOrderId == r.externalOrderId && r'.venueOrderId == r.venueOrderId)
    && (evidence.Some? ==>
          && r'.filled == Some(evidence.value.filled) && r'.quote == Some(evidence.value.quote)
          && r'.fee == FeePending && r'.feeNextAttemptAt == now)
    && (evidence.None? ==>
          && r'.filled == r.filled && r'.quote == r.quote && r'.fee == r.fee && r'.feeNextAttemptAt == r.feeNextAttemptAt)
    && (status.Failed? && evidence.None? && r.route.Some? ==> r'.pnl == PnlDone(Unavailable(HedgeNotExecuted, {}, now)))
    && (status.Filled? || evidence.Some? || r.route.None? ==> r'.pnl == r.pnl)
    && r'.intent == r.intent && r'.canonical == r.canonical && r'.route == r.route
    && r'.nextAttemptAt == r.nextAttemptAt && r'.attemptCount == r.attemptCount
    && r'.submissionAttemptedAt == r.submissionAttemptedAt && r'.cancelRequestedAt == r.cancelRequestedAt
    && r'.feeLease == r.feeLease && r'.feeAttemptCount == r.feeAttemptCount
  }

  // ---------------------------------------------------------------- digit limits

  /** The limits are 78 digits. */
  lemma SeventyEightDigits()
    ensures TEN_TO_78 == Pow10(78)
  {
    ThirteenZeros();
    hide Pow10;
    PowAdd(13, 13);
    PowAdd(26, 26);
    PowAdd(52, 26);
  }

  lemma ThirteenZeros()
    ensures Pow10(13) == 10_000_000_000_000
  {
    assert Pow10(6) == 1_000_000;
    PowAdd(6, 6);
    PowAdd(12, 1);
  }

  // ---------------------------------------------------------------- net PnL

  lemma {:induction false} LatestIsMaximum(fills: seq<Fill>)
    requires fills != []
    ensures exists k :: 0 <= k < |fills| && fills[k].executedAt == LatestExecution(fills)
    ensures forall k :: 0 <= k < |fills| ==> fills[k].executedAt <= LatestExecution(fills)
  {
    var n := |fills| - 1;
    assert fills[n].executedAt > LatestExecution(fills[..n]) ==> fills[n].executedAt == LatestExecution(fills);
    if n > 0 {
      LatestIsMaximum(fills[..n]);
      var k :| 0 <= k < n && fills[..n][k].executedAt == LatestExecution(fills[..n]);
      assert fills[k].executedAt == LatestExecution(fills[..n]);
      forall j | 0 <= j < n ensures fills[j].executedAt <= LatestExecution(fills[..n]) {
        assert fills[..n][j] == fills[j];
      }
    }
  }

  /** Every column of the net PnL: no result when more was filled than the target; an unvalued third-asset
      commission makes it unavailable; otherwise the reference at 18 decimals, the executed quote, the unfilled
      rest of the target, its value at the execution average rounded against the desk, and their balance. */
  lemma NetPnlColumns(input: PnlInput, fills: seq<Fill>, realizedAt: nat)
    ensures var result := NetPnlOf(input, fills, realizedAt);
            && (result.None? <==> input.filledAmount > input.targetAmount)
            && (result.Some? ==>
                  (result.value.Unavailable?
                   <==> exists f :: f in fills && f.commission != 0 && f.commissionAsset != input.quoteAsset
                                    && f.commissionAsset != input.baseAsset))
            && (result.Some? && result.value.Unavailable? ==>
                  && result.value.reason == UnvaluedCommissionAsset && result.value.realizedAt == realizedAt
                  && forall a :: a in result.value.unvaluedAssets <==>
                       exists f :: f in fills && f.commissionAsset == a && f.commission != 0 && a != input.quoteAsset
                                   && a != input.baseAsset)
            && (result.Some? && result.value.Complete? ==>
                  var p := result.value;
                  && p.settlementReference == input.settlementReferenceAmount * Pow10(18 - input.quoteTokenDecimals)
                  && p.executedQuote == input.executedQuote && p.realizedAt == realizedAt
                  && p.residualBase == input.targetAmount - input.filledAmount
                  && p.commissionQuote == TotalCharge(fills, input)
                  && (input.side.Sell? ==>
                        && p.residualQuote * input.filledAmount <= p.executedQuote * p.residualBase
                        && p.executedQuote * p.residualBase < p.residualQuote * input.filledAmount + input.filledAmount
                        && p.net == p.executedQuote + p.residualQuote - p.settlementReference - p.commissionQuote)
                  && (input.side.Buy? ==>
                        && p.executedQuote * p.residualBase <= p.residualQuote * input.filledAmount
                        && p.residualQuote * input.filledAmount < p.executedQuote * p.residualBase + input.filledAmount
                        && p.net == p.settlementReference - p.executedQuote - p.residualQuote - p.commissionQuote))
  {
    hide TotalCharge, Pow10;
    var result := NetPnlOf(input, fills, realizedAt);
    if result.Some? {
      UnvaluedExactly(input, fills);
      var owed := Times(input.executedQuote, input.targetAmount - input.filledAmount);
      FloorBounds(owed, input.filledAmount);
      CeilBounds(owed, input.filledAmount);
    }
  }

  lemma UnvaluedExactly(input: PnlInput, fills: seq<Fill>)
    ensures forall a :: a in UnvaluedAssets(fills, input) <==>
              exists f :: f in fills && f.commissionAsset == a && f.commission != 0 && a != input.quoteAsset
                          && a != input.baseAsset
    ensures UnvaluedAssets(fills, input) != {}
            <==> exists f :: f in fills && f.commission != 0 && f.commissionAsset != input.quoteAsset
                             && f.commissionAsset != input.baseAsset
  {
    if f :| f in fills && f.commission != 0 && f.commissionAsset != input.quoteAsset && f.commissionAsset != input.baseAsset {
      assert Unvalued(f, input) && f.commissionAsset in UnvaluedAssets(fills, input);
    }
    if UnvaluedAssets(fills, input) != {} {
      var a :| a in UnvaluedAssets(fills, input);
    }
  }

  /** What the fee store settles: only a terminal row whose route is quoted in the reference token, a failed one
      as unclosed, a filled one from its own amounts, route and fills, at the time of the last fill. */
  lemma SettledColumns(r: Row, fills: seq<Fill>)
    ensures SettledPnl(r, fills).Some? <==>
              && r.route.Some? && r.route.value.route.quoteToken == r.intent.referenceToken
              && (r.status.Failed?
                  || (r.status.Filled? && r.filled.Some? && 0 < r.filled.value <= r.intent.amount && r.quote.Some?))
    ensures SettledPnl(r, fills).Some? && r.status.Failed? ==>
              SettledPnl(r, fills).value == Unavailable(PartialHedgeUnclosed, {}, LatestExecution(fills))
    ensures SettledPnl(r, fills).Some? && r.status.Filled? ==>
              SettledPnl(r, fills) == NetPnlOf(
                PnlInputFields(r.intent.side, r.intent.amount, r.filled.value, r.intent.referenceAmount,
                               r.route.value.route.quoteTokenDecimals, r.quote.value,
                               r.route.value.route.baseAsset, r.route.value.route.quoteAsset),
                fills, LatestExecution(fills))
  {
    hide LatestExecution, UnvaluedAssets, TotalCharge, ResidualQuote, ReferenceScaled;
  }

  /** completeReconciliation commits to an empty fill table exactly when the fee lease is held, the fills are
      distinct fills of the order whose quotes sum to the report, the report agrees with the row, and the row can
      be settled. */
  lemma ReconciliationAccepts(r: Row, w: WorkerId, expectedFilled: nat, venueOrder: nat, quote: nat, fills: seq<Fill>)
    ensures CompleteReconciliation(r, [], w, expectedFilled, venueOrder, quote, fills).Ok? <==>
              && r.fee.FeePending? && r.feeLease.Some? && r.feeLease.value.owner == w
              && expectedFilled > 0 && r.filled == Some(expectedFilled)
              && 0 < quote < TEN_TO_78 && SumQuote(fills) == quote && (r.quote.None? || r.quote.value == quote)
              && SumQuantity(fills) < TEN_TO_78
              && 1 <= |fills| <= 100_000 && DistinctTrades(fills)
              && (forall i :: 0 <= i < |fills| ==> fills[i].orderId == venueOrder)
              && (r.venueOrderId.None? || r.venueOrderId.value == venueOrder)
              && r.route.Some? && SettledPnl(r, fills).Some?
  {
    if DistinctTrades(fills) { UpsertIntoEmpty(fills); }
    hide UpsertFills, SettledPnl, SumQuantity, SumQuote, DistinctTrades, ValidFill, ValidRoute, SameQuantity, FillSetOk;
    FillSetColumns(fills, venueOrder);
    Comparable(SumQuantity(fills), SumQuantity(fills));
    Comparable(SumQuote(fills), quote);
    if r.quote.Some? { Comparable(r.quote.value, quote); }
  }

  /** It stores the fills, ends the fee columns with the order id, the quote and the net PnL, and changes nothing
      else of the row. */
  lemma ReconciliationWrites(r: Row, w: WorkerId, expectedFilled: nat, venueOrder: nat, quote: nat, fills: seq<Fill>)
    requires CompleteReconciliation(r, [], w, expectedFilled, venueOrder, quote, fills).Ok?
    ensures SettledPnl(r, fills).Some?
    ensures CompleteReconciliation(r, [], w, expectedFilled, venueOrder, quote, fills).value
            == Reconciled(r.(venueOrderId := Some(venueOrder), quote := Some(quote), fee := FeeComplete, feeLease := None,
                             pnl := PnlDone(SettledPnl(r, fills).value)), fills)
  {
    if DistinctTrades(fills) { UpsertIntoEmpty(fills); }
    hide UpsertFills, SettledPnl, SumQuantity, SumQuote, DistinctTrades, ValidFill, ValidRoute, SameQuantity, FeeOwns;
  }

  lemma Comparable(a: nat, b: nat)
    ensures SameQuantity(a, b) <==> a == b < TEN_TO_78
  {
  }

  lemma FillSetColumns(fills: seq<Fill>, venueOrder: nat)
    ensures FillSetOk(fills, venueOrder) <==>
              && 1 <= |fills| <= 100_000 && DistinctTrades(fills)
              && (forall i :: 0 <= i < |fills| ==> fills[i].orderId == venueOrder)
  {
  }

  // ---------------------------------------------------------------- what the worker plans and accepts

  /** What the worker plans before its first call.  Without a route, with another quote token or with an amount
      below one step the job can never be sent; without a limit price it may be tried again. */
  lemma PlanColumns(job: Job, config: Option<Route>, maxOrderAgeMs: nat)
    ensures var reply := MakePlan(job, config, maxOrderAgeMs);
            && (reply.Answer? <==>
                  && config.Some? && config.value.quoteToken == job.intent.referenceToken
                  && config.value.stepSizeRaw <= job.intent.amount
                  && LimitPrice(job.intent.side, job.intent.amount, job.intent.referenceAmount, config.value).Some?)
            && (reply.Answer? ==>
                  var plan := reply.value;
                  && plan.jobRoute.route == config.value && plan.jobRoute.clientOrderId == job.hedge
                  && plan.jobRoute.maxOrderAgeMs == maxOrderAgeMs
                  && LimitPrice(job.intent.side, job.intent.amount, job.intent.referenceAmount, config.value)
                     == Some(plan.jobRoute.limitPrice)
                  && plan.target % config.value.stepSizeRaw == 0
                  && job.intent.amount - config.value.stepSizeRaw < plan.target <= job.intent.amount)
            && (reply.Refusal? ==>
                  && reply.error.retryAfterMs.None?
                  && (reply.error.retryable <==>
                        && config.Some? && config.value.quoteToken == job.intent.referenceToken
                        && config.value.stepSizeRaw <= job.intent.amount)
                  && (reply.error.code == RouteNotConfigured <==> config.None?)
                  && (reply.error.code == ReferenceTokenMismatch <==>
                        config.Some? && config.value.quoteToken != job.intent.referenceToken)
                  && (reply.error.code in {RouteNotConfigured, ReferenceTokenMismatch, AmountBelowStepSize, WorkerInternal}))
  {
    hide LimitPrice, Quantize;
    if config.Some? { QuantizeGreatest(job.intent.amount, config.value.stepSizeRaw, 0); }
  }

  /** The reports that the worker applies: whole steps, evidence paired, within the target, and a filled order
      exactly at the target. */
  lemma AcceptedReply(order: OrderReply, plan: Plan)
    ensures ReplyError(order, plan).None? <==>
              && order.executed % plan.jobRoute.route.stepSizeRaw == 0
              && (order.executed == 0 <==> order.quote == 0)
              && order.executed <= plan.target
              && (order.state.OrderFilled? ==> order.executed == plan.target)
    ensures ReplyError(order, plan).Some? ==>
              ReplyError(order, plan).value == if order.executed % plan.jobRoute.route.stepSizeRaw != 0
                                               then ExecutedQuantityInvalid else VenueResponseInvalid
  {
  }

  /** After n failed attempts the worker waits base * 2^(n - 1), up to the cap; the venue's Retry-After counts when
      it is longer. */
  lemma BackoffDoubles(base: nat, attempts: nat, after: Option<nat>)
    ensures Backoff(base, 0) == Backoff(base, 1) == if base < 60_000 then base else 60_000
    ensures 1 <= attempts <= 30 ==>
              Backoff(base, attempts + 1)
              == if 2 * Backoff(base, attempts) < 60_000 then 2 * Backoff(base, attempts) else 60_000
    ensures base > 0 && attempts >= 17 ==> Backoff(base, attempts) == 60_000
    ensures RetryDelay(base, attempts, after)
            == if after.Some? && after.value > Backoff(base, attempts) then after.value else Backoff(base, attempts)
  {
    if 1 <= attempts <= 30 { DoubledScale(base, attempts); }
    if base > 0 && attempts >= 17 {
      hide Pow2, Backoff;
      SixteenDoublings();
      BackoffGrows(base, 17, attempts);
      SeventeenthIsCapped(base);
    }
  }

  lemma DoubledScale(base: nat, attempts: nat)
    requires 1 <= attempts <= 30
    ensures Times(base, Pow2(Exponent(attempts + 1))) == 2 * Times(base, Pow2(Exponent(attempts)))
  {
    assert Pow2(attempts) == 2 * Pow2(attempts - 1);
    TwiceTimes(base, Pow2(attempts - 1));
  }

  lemma TwiceTimes(a: nat, b: nat)
    ensures a * (2 * b) == 2 * (a * b)
  {
  }

  lemma SixteenDoublings()
    ensures Pow2(16) == 65_536
  {
    assert Pow2(4) == 16;
    assert Pow2(8) == 256;
    assert Pow2(12) == 4_096;
  }

  lemma SeventeenthIsCapped(base: nat)
    requires base > 0
    ensures Backoff(base, 17) == 60_000
  {
    SixteenDoublings();
    hide Pow2;
    ScaleMonotone(1, 1, 1);
    MulMonotone(1, base, 65_536);
  }
}
