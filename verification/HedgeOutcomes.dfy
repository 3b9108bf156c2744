/** What a finished hedge is worth: frozen fee evidence, the loss bound on the recorded PnL, and how much of
    the settlement's exposure is left, for every hedge of every run. */
module HedgeOutcomes {
  import opened Arithmetic
  import opened HedgeRoute
  import opened HedgeNetPnl
  import opened HedgeRows
  import opened HedgeWorker
  import opened HedgePlanner
  import opened HedgeMachine
  import opened HedgeInvariant
  import opened HedgeSafety
  import opened HedgeTheorems

  // ---------------------------------------------------------------- fee completion

  /** A hedge is fee-complete only once it is filled or failed; its fills then sum exactly to both recorded
      quantities and belong to its order, and status, amounts, fills and PnL never change again. */
  lemma FeeCompletionFrozen(s: Sys, before: seq<Step>, later: seq<Step>, h: nat)
    requires Initial(s) && Legal(s, before) && Legal(After(s, before), later)
    requires h < |After(s, before).hedges| && After(s, before).hedges[h].row.fee.FeeComplete?
    ensures h < |After(After(s, before), later).hedges|
    ensures var g, g' := After(s, before).hedges[h], After(After(s, before), later).hedges[h];
            && !g.row.status.Queued?
            && g.row.filled.Some?
            && SumQuantity(g.fills) == Times(g.row.filled.value, Pow10(36 - g.row.intent.tokenDecimals))
            && g.row.quote == Some(SumQuote(g.fills))
            && DistinctTrades(g.fills)
            && (forall f :: f in g.fills ==> g.row.venueOrderId == Some(f.orderId))
            && g'.row.fee == g.row.fee && g'.row.status == g.row.status
            && g'.row.filled == g.row.filled && g'.row.quote == g.row.quote
            && g'.row.pnl == g.row.pnl && g'.fills == g.fills
  {
    ReachedHedge(s, before, h);
    InitialInv(s);
    RunInv(s, before);
    RunAdvances(After(s, before), later);
    hide Inv, Legal, After, Initial, HedgeInv, Advances, SumQuantity, SumQuote, Times, DistinctTrades;
    CompleteFees(h, After(s, before).hedges[h]);
    CompleteStays(h, After(s, before).hedges[h], After(After(s, before), later).hedges[h]);
  }

  lemma CompleteFees(h: nat, g: Hedge)
    requires HedgeInv(h, g) && g.row.fee.FeeComplete?
    ensures !g.row.status.Queued? && g.row.filled.Some?
    ensures SumQuantity(g.fills) == Times(g.row.filled.value, Pow10(36 - g.row.intent.tokenDecimals))
    ensures g.row.quote == Some(SumQuote(g.fills)) && DistinctTrades(g.fills)
    ensures forall f :: f in g.fills ==> g.row.venueOrderId == Some(f.orderId)
  {
    hide LimitPrice, Quantize, AtOrBetter, SumQuantity, SumQuote, Times, SettledPnl, DistinctTrades;
  }

  lemma CompleteStays(h: nat, g: Hedge, g': Hedge)
    requires HedgeInv(h, g) && Advances(g, g') && g.row.fee.FeeComplete?
    ensures g'.row.fee == g.row.fee && g'.row.status == g.row.status
    ensures g'.row.filled == g.row.filled && g'.row.quote == g.row.quote
    ensures g'.row.pnl == g.row.pnl && g'.fills == g.fills
  {
    hide RouteInv, CallInv, VenueInv, EvidenceInv, TerminalInv, PnlInv, SumQuantity, SumQuote, Times, SettledPnl;
  }

  // ---------------------------------------------------------------- the loss bound of the whole system

  /** The commission that the recorded PnL charges for the stored fills. */
  function RecordedCharge(g: Hedge): nat {
    if PnlInputOf(g.row).Some? then TotalCharge(g.fills, PnlInputOf(g.row).value) else 0
  }

  /** Whatever happened on the way, a fee-complete filled hedge has either an unvalued third-asset commission
      or a recorded net PnL above minus its slippage allowance on the reference, one price tick on the base
      amount, its commissions and one unit of 10^-18; a fee-complete failed hedge is marked unclosed. */
  lemma CompletedHedgeLossBound(s: Sys, run: seq<Step>, h: nat)
    requires Initial(s) && Legal(s, run)
    requires h < |After(s, run).hedges| && After(s, run).hedges[h].row.fee.FeeComplete?
    ensures var g := After(s, run).hedges[h];
            && g.row.route.Some? && g.row.pnl.PnlDone?
            && (g.row.status.Failed? ==> g.row.pnl.pnl.Unavailable? && g.row.pnl.pnl.reason == PartialHedgeUnclosed)
            && (g.row.status.Filled? ==>
                  if exists f :: f in g.fills && f.commission != 0
                                 && f.commissionAsset != g.row.route.value.route.quoteAsset
                                 && f.commissionAsset != g.row.route.value.route.baseAsset
                  then g.row.pnl.pnl.Unavailable? && g.row.pnl.pnl.reason == UnvaluedCommissionAsset
                  else
                    && g.row.pnl.pnl.Complete?
                    && g.row.pnl.pnl.commissionQuote == RecordedCharge(g)
                    && g.row.pnl.pnl.net as real
                       > - LossAllowance(g.row.intent, g.row.route.value.route)
                         - g.row.pnl.pnl.commissionQuote as real - 1.0)
  {
    ReachedHedge(s, run, h);
    hide Inv, Legal, After, Initial;
    CompletePnl(h, After(s, run).hedges[h]);
  }

  /** Slippage on the settlement's reference value plus one tick on the hedged amount, in units of 10^-18. */
  function LossAllowance(intent: Intent, route: Route): real {
    AllowedLoss(Times(intent.referenceAmount, Pow10(18 - route.quoteTokenDecimals)), route.maxSlippageBps,
                route.priceTick, intent.amount, Pow10(route.tokenDecimals))
  }

  lemma CompletePnl(h: nat, g: Hedge)
    requires HedgeInv(h, g) && g.row.fee.FeeComplete?
    ensures g.row.route.Some? && g.row.pnl.PnlDone?
    ensures g.row.status.Failed? ==> g.row.pnl.pnl.Unavailable? && g.row.pnl.pnl.reason == PartialHedgeUnclosed
    ensures g.row.status.Filled? ==>
              if exists f :: f in g.fills && f.commission != 0
                             && f.commissionAsset != g.row.route.value.route.quoteAsset
                             && f.commissionAsset != g.row.route.value.route.baseAsset
              then g.row.pnl.pnl.Unavailable? && g.row.pnl.pnl.reason == UnvaluedCommissionAsset
              else
                && g.row.pnl.pnl.Complete?
                && g.row.pnl.pnl.commissionQuote == RecordedCharge(g)
                && g.row.pnl.pnl.net as real
                   > - LossAllowance(g.row.intent, g.row.route.value.route) - g.row.pnl.pnl.commissionQuote as real - 1.0
  {
    hide AllowedLoss, TotalCharge, AtOrBetter, LimitPrice, Quantize, SumQuantity, SumQuote, Times, Pow10,
      LatestExecution, ResidualQuote;
    var r := g.row;
    assert SettledPnl(r, g.fills).Some?;
    if r.status.Filled? {
      var input := PnlInputOf(r).value;
      if UnvaluedAssets(g.fills, input) == {} {
        NoneUnvalued(g.fills, input);
        WorstCaseLoss(input, r.route.value.route, g.fills, LatestExecution(g.fills));
      } else {
        SomeUnvalued(g.fills, input);
      }
    }
  }

  lemma NoneUnvalued(fills: seq<Fill>, input: PnlInput)
    requires UnvaluedAssets(fills, input) == {}
    ensures !exists f :: f in fills && f.commission != 0 && f.commissionAsset != input.quoteAsset
                         && f.commissionAsset != input.baseAsset
  {
    forall f | f in fills ensures !Unvalued(f, input) {
      if Unvalued(f, input) { UnvaluedListed(fills, f, input); }
    }
  }

  lemma UnvaluedListed(fills: seq<Fill>, f: Fill, input: PnlInput)
    requires f in fills && Unvalued(f, input)
    ensures f.commissionAsset in UnvaluedAssets(fills, input)
  {
  }

  lemma SomeUnvalued(fills: seq<Fill>, input: PnlInput)
    requires UnvaluedAssets(fills, input) != {}
    ensures exists f :: f in fills && f.commission != 0 && f.commissionAsset != input.quoteAsset
                        && f.commissionAsset != input.baseAsset
  {
    var asset :| asset in UnvaluedAssets(fills, input);
    var f :| f in fills && Unvalued(f, input) && f.commissionAsset == asset;
  }

  // ---------------------------------------------------------------- delta neutrality

  /** What the settlement and the hedge together have moved of a token. */
  function Exposure(g: Hedge, token: nat): int { SettlementDelta(g.settlement, token) + Moved(g, token) }

  predicate LessThanAStep(side: Side, exposure: int, step: int) {
    if side.Sell? then 0 <= exposure < step else -step < exposure <= 0
  }

  /** A filled hedge leaves less than one venue step of the settlement's exposure, on the settlement's side. */
  lemma FilledHedgeNeutral(s: Sys, run: seq<Step>, h: nat)
    requires Initial(s) && Legal(s, run)
    requires h < |After(s, run).hedges| && After(s, run).hedges[h].row.status.Filled?
    ensures var g := After(s, run).hedges[h];
            && g.row.route.Some?
            && LessThanAStep(g.row.intent.side, Exposure(g, g.row.intent.token), g.row.route.value.route.stepSizeRaw)
  {
    ReachedHedge(s, run, h);
    hide Inv, Legal, After, Initial;
    FilledExposure(h, After(s, run).hedges[h]);
  }

  lemma FilledExposure(h: nat, g: Hedge)
    requires HedgeInv(h, g) && g.row.status.Filled?
    ensures g.row.route.Some?
    ensures LessThanAStep(g.row.intent.side, Exposure(g, g.row.intent.token), g.row.route.value.route.stepSizeRaw)
  {
    FilledAmount(h, g);
    hide HedgeInv, Quantize;
    QuantizeGreatest(g.row.intent.amount, g.row.route.value.route.stepSizeRaw, 0);
    PlanReversesSettlement(g.settlement);
  }

  lemma FilledAmount(h: nat, g: Hedge)
    requires HedgeInv(h, g) && g.row.status.Filled?
    ensures g.row.route.Some? && PlanHedge(g.settlement) == Some(g.row.intent)
    ensures g.row.filled.Some? && g.row.filled == Quantize(g.row.intent.amount, g.row.route.value.route.stepSizeRaw)
  {
    hide AtOrBetter, LimitPrice, Quantize, FeeInv, PnlInv, EvidenceInv, PlanHedge;
  }

  /** Movement of a token by anything but settlements and hedges. */
  function ManualMovement(run: seq<Step>, token: nat): int
    decreases |run|
  {
    if run == [] then 0
    else (if run[0].Move? && run[0].token == token then run[0].delta else 0) + ManualMovement(run[1..], token)
  }

  function SettledSum(hedges: seq<Hedge>, token: nat): int {
    if hedges == [] then 0
    else SettledSum(hedges[..|hedges| - 1], token) + SettlementDelta(hedges[|hedges| - 1].settlement, token)
  }

  lemma {:induction false} SettledSumAdvances(a: seq<Hedge>, b: seq<Hedge>, token: nat)
    requires |a| == |b| && forall k :: 0 <= k < |a| ==> a[k].settlement == b[k].settlement
    ensures SettledSum(a, token) == SettledSum(b, token)
  {
    if a != [] { SettledSumAdvances(a[..|a| - 1], b[..|b| - 1], token); }
  }

  /** Settlements of the run are those of the hedges it created. */
  lemma {:induction false} SettlementsAreHedges(s: Sys, run: seq<Step>, token: nat)
    requires Inv(s) && Legal(s, run)
    ensures SettledSum(After(s, run).hedges, token) ==
            SettledSum(s.hedges, token) + OtherMovement(run, token) - ManualMovement(run, token)
    decreases |run|
  {
    hide Inv, Enabled, Next;
    if run != [] {
      InvNext(s, run[0]);
      StepSettles(s, run[0], token);
      SettlementsAreHedges(Next(s, run[0]), run[1..], token);
    }
  }

  lemma OnlyCreateGrows(s: Sys, step: Step)
    requires Enabled(s, step) && !step.CreateHedge?
    ensures |Next(s, step).hedges| == |s.hedges|
  {
    hide Statement, AfterStatement, FeeEffect, AfterQuery, AfterClaim, AfterOrder, AfterTrades, PlanHedge, Honest,
      CancelDue, Claimable, RetryDelay, TradeAllowed, Add, Settle;
  }

  lemma StepSettles(s: Sys, step: Step, token: nat)
    requires Inv(s) && Enabled(s, step)
    ensures SettledSum(Next(s, step).hedges, token) ==
            SettledSum(s.hedges, token) + if step.CreateHedge? then SettlementDelta(step.settlement, token) else 0
  {
    var s' := Next(s, step);
    if step.CreateHedge? {
      assert s'.hedges[..|s.hedges|] == s.hedges;
    } else {
      InvNext(s, step);
      OnlyCreateGrows(s, step);
      hide Inv, Next, Enabled;
      assert forall k :: 0 <= k < |s.hedges| ==> Advances(s.hedges[k], s'.hedges[k]);
      SettledSumAdvances(s.hedges, s'.hedges, token);
    }
  }

  /** One step size less one for each hedge of the token. */
  function StepSlack(hedges: seq<Hedge>, token: nat): int {
    if hedges == [] then 0
    else
      var g := hedges[|hedges| - 1];
      StepSlack(hedges[..|hedges| - 1], token)
      + if g.row.intent.token == token && g.row.route.Some? then g.row.route.value.route.stepSizeRaw - 1 else 0
  }

  lemma {:induction false} ExposureWithinSlack(hedges: seq<Hedge>, token: nat)
    requires HedgesOk(hedges)
    requires forall k :: 0 <= k < |hedges| ==>
               hedges[k].row.status.Filled? && hedges[k].row.intent.referenceToken != token
    ensures var total := SettledSum(hedges, token) + HedgeSum(hedges, token);
            -StepSlack(hedges, token) <= total <= StepSlack(hedges, token)
  {
    hide HedgeInv;
    if hedges != [] {
      var n := |hedges| - 1;
      ExposureWithinSlack(hedges[..n], token);
      FilledExposure(n, hedges[n]);
      if hedges[n].row.intent.token != token { SettlementElsewhere(n, hedges[n], token); }
    }
  }

  lemma SettlementElsewhere(h: nat, g: Hedge, token: nat)
    requires HedgeInv(h, g) && g.row.intent.referenceToken != token && g.row.intent.token != token
    ensures SettlementDelta(g.settlement, token) == 0
  {
    PlanReversesSettlement(g.settlement);
  }

  /** Delta neutrality of the book: when every hedge is filled, the balance of a token that no hedge used as
      its reference has returned to its initial value, manual moves aside, within the sum of the step sizes
      less one over the token's hedges. */
  lemma BookIsNeutral(s: Sys, run: seq<Step>, token: nat)
    requires Initial(s) && Legal(s, run)
    requires forall h :: 0 <= h < |After(s, run).hedges| ==>
               After(s, run).hedges[h].row.status.Filled? && After(s, run).hedges[h].row.intent.referenceToken != token
    ensures var drift := Balance(After(s, run).balances, token) - Balance(s.balances, token) - ManualMovement(run, token);
            -StepSlack(After(s, run).hedges, token) <= drift <= StepSlack(After(s, run).hedges, token)
  {
    InitialInv(s);
    RunInv(s, run);
    InventoryConserved(s, run, token);
    SettlementsAreHedges(s, run, token);
    hide HedgeInv, Legal, After;
    ExposureWithinSlack(After(s, run).hedges, token);
  }
}
