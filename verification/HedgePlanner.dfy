/** The delta-neutral planner (backend/src/modules/hedge/hedge-intent-planner.ts:45-74) and the reference leg
    that claimNext joins from the quote (backend/src/modules/hedge/postgres-hedge-job.store.ts:107-109). */
module HedgePlanner {
  import opened HedgeRoute
  import opened HedgeRows

  datatype SettlementFields = SettlementFields(
    tokenIn: nat,
    tokenOut: nat,
    amountIn: nat,
    amountOut: nat,
    inIsUsd: bool,
    outIsUsd: bool,
    inDecimals: nat,
    outDecimals: nat)

  /** What assertPlanInput and readTokenMetadata check. */
  type Settlement = s: SettlementFields |
      s.tokenIn != s.tokenOut && s.amountIn > 0 && s.amountOut > 0 && s.inDecimals <= 36 && s.outDecimals <= 36
    witness SettlementFields(1, 2, 1, 1, false, true, 18, 6)

  /** The planned hedge; None is HEDGE_REFERENCE_ASSET_AMBIGUOUS. */
  function PlanHedge(s: Settlement): Option<Intent> {
    if !s.inIsUsd && !s.outIsUsd then None
    else if s.outIsUsd && !s.inIsUsd then
      Some(IntentFields(Sell, s.tokenIn, s.amountIn, s.tokenOut, s.amountOut, s.inDecimals))
    else Some(IntentFields(Buy, s.tokenOut, s.amountOut, s.tokenIn, s.amountIn, s.outDecimals))
  }

  /** What the settlement itself moves: amountIn of tokenIn in, amountOut of tokenOut out. */
  function SettlementDelta(s: Settlement, token: nat): int {
    if token == s.tokenIn then s.amountIn else if token == s.tokenOut then -(s.amountOut as int) else 0
  }

  predicate IsUsd(s: Settlement, token: nat) {
    (token == s.tokenIn && s.inIsUsd) || (token == s.tokenOut && s.outIsUsd)
  }

  /** Which leg is hedged, from the settlement alone: nothing exactly when neither token is a USD reference;
      otherwise the reference is always a USD token, the hedged token is the other one, and of two USD tokens
      the one that went out is bought back. */
  lemma HedgedLeg(s: Settlement)
    ensures PlanHedge(s).None? <==> !s.inIsUsd && !s.outIsUsd
    ensures PlanHedge(s).Some? ==>
              var i := PlanHedge(s).value;
              && IsUsd(s, i.referenceToken)
              && {i.token, i.referenceToken} == {s.tokenIn, s.tokenOut}
              && (s.inIsUsd != s.outIsUsd ==> !IsUsd(s, i.token))
              && (s.inIsUsd && s.outIsUsd ==> i.token == s.tokenOut)
              && (i.token == s.tokenOut ==> i.side.Buy? && i.tokenDecimals == s.outDecimals)
              && (i.token == s.tokenIn ==> i.side.Sell? && i.tokenDecimals == s.inDecimals)
              && (i.amount, i.referenceAmount)
                 == (if i.token == s.tokenOut then (s.amountOut, s.amountIn) else (s.amountIn, s.amountOut))
  {
  }

  /** A planned hedge reverses the settlement on the hedged token and takes the other leg as reference. */
  lemma PlanReversesSettlement(s: Settlement)
    requires PlanHedge(s).Some?
    ensures var intent := PlanHedge(s).value;
            && SettlementDelta(s, intent.token) + Signed(intent.side, intent.amount) == 0
            && SettlementDelta(s, intent.referenceToken) == Signed(intent.side, intent.referenceAmount)
            && SettlementDelta(s, s.tokenIn) > 0 && SettlementDelta(s, s.tokenOut) < 0
  {
  }
}
