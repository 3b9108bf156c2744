/** Net hedge execution PnL (backend/src/modules/hedge/hedge-net-pnl.ts).  Quote amounts and prices are
    integers in units of 10^-18, base quantities and commissions in units of 10^-36, as the NUMERIC
    columns of hedge_execution_fills hold them. */
module HedgeNetPnl {
  import opened Arithmetic
  import opened HedgeRoute

  datatype FillFields = FillFields(
    tradeId: nat,
    orderId: nat,
    price: nat,
    quantity: nat,
    quoteQuantity: nat,
    commission: nat,
    commissionAsset: string,
    executedAt: nat,
    isBuyer: bool,
    isMaker: bool)

  const MAX_SAFE_INTEGER: nat := 9_007_199_254_740_991
  const MAX_TIME_MS: nat := 8_640_000_000_000_000  // the last time that toISOString can print
  const TEN_TO_78: nat :=
    1_000_000_000_000_000_000_000_000_000_000_000_000_000_000_000_000_000_000_000_000_000_000_000_000_000_000

  predicate SafeId(id: int) { 0 < id <= MAX_SAFE_INTEGER }

  /** White space or a control character. */
  predicate Blank(c: char) {
    || c <= ' ' || '\U{7F}' <= c <= '\U{A0}' || c == '\U{1680}' || '\U{2000}' <= c <= '\U{200A}'
    || c in "\U{2028}\U{2029}\U{202F}\U{205F}\U{3000}\U{FEFF}"
  }

  /** isCommissionAsset. */
  predicate AssetName(s: string) { 1 <= |s| <= 64 && forall k :: 0 <= k < |s| ==> !Blank(s[k]) }

  /** What assertCexTradeFill checks: safe ids, and at most 78 digits in each number, 18 of them after the
      point in prices and quote amounts and 36 in base amounts and commissions. */
  predicate ValidFill(f: FillFields) {
    && SafeId(f.tradeId) && SafeId(f.orderId)
    && 0 < f.price < TEN_TO_78 && 0 < f.quantity < TEN_TO_78 && 0 < f.quoteQuantity < TEN_TO_78
    && f.commission < TEN_TO_78
    && AssetName(f.commissionAsset)
    && 0 < f.executedAt <= MAX_TIME_MS
  }

  type Fill = f: FillFields | ValidFill(f)
    witness FillFields(1, 1, 1, 1, 1, 0, "USDT", 1, true, true)

  datatype UnavailableReason = UnvaluedCommissionAsset | PartialHedgeUnclosed | HedgeNotExecuted

  datatype NetPnl =
    | Complete(settlementReference: nat, executedQuote: nat, residualBase: nat, residualQuote: nat,
               commissionQuote: nat, net: int, realizedAt: nat)
    | Unavailable(reason: UnavailableReason, unvaluedAssets: set<string>, realizedAt: nat)

  datatype PnlInputFields = PnlInputFields(
    side: Side,
    targetAmount: nat,
    filledAmount: nat,
    settlementReferenceAmount: nat,
    quoteTokenDecimals: nat,
    executedQuote: nat,
    baseAsset: string,
    quoteAsset: string)

  /** What assertInput checks; fills are passed beside the record. */
  type PnlInput = i: PnlInputFields |
      && i.targetAmount > 0 && i.filledAmount > 0 && i.settlementReferenceAmount > 0
      && i.quoteTokenDecimals <= 18 && i.baseAsset != i.quoteAsset
    witness PnlInputFields(Buy, 1, 1, 1, 0, 1, "ETH", "USDT")

  /** Commission of one fill in quote units, rounded up: a quote commission is cut to 18 decimals, a base
      commission is valued at the fill's own quote/base ratio. */
  function Charge(f: Fill, input: PnlInput): nat {
    if f.commission == 0 then 0
    else if f.commissionAsset == input.quoteAsset then DivCeil(f.commission, Pow10(18))
    else if f.commissionAsset == input.baseAsset then DivCeil(Times(f.quoteQuantity, f.commission), f.quantity)
    else 0
  }

  predicate Unvalued(f: Fill, input: PnlInput) {
    f.commission != 0 && f.commissionAsset != input.quoteAsset && f.commissionAsset != input.baseAsset
  }

  function TotalCharge(fills: seq<Fill>, input: PnlInput): nat {
    if fills == [] then 0
    else TotalCharge(fills[..|fills| - 1], input) + Charge(fills[|fills| - 1], input)
  }

  function UnvaluedAssets(fills: seq<Fill>, input: PnlInput): set<string> {
    set f | f in fills && Unvalued(f, input) :: f.commissionAsset
  }

  function ReferenceScaled(input: PnlInput): nat {
    Times(input.settlementReferenceAmount, Pow10(18 - input.quoteTokenDecimals))
  }

  /** The part of the target below one venue step, valued at the execution average: down for a sell,
      up for a buy. */
  function ResidualQuote(input: PnlInput): nat
    requires input.filledAmount <= input.targetAmount
  {
    var owed := Times(input.executedQuote, input.targetAmount - input.filledAmount);
    if input.side.Sell? then owed / input.filledAmount else DivCeil(owed, input.filledAmount)
  }

  /** Specification of calculateHedgeNetPnl; None is the over-filled error. */
  function NetPnlOf(input: PnlInput, fills: seq<Fill>, realizedAt: nat): Option<NetPnl> {
    if input.filledAmount > input.targetAmount then None
    else if UnvaluedAssets(fills, input) != {} then
      Some(Unavailable(UnvaluedCommissionAsset, UnvaluedAssets(fills, input), realizedAt))
    else
      var commission := TotalCharge(fills, input);
      var reference := ReferenceScaled(input);
      var residual := ResidualQuote(input);
      Some(Complete(
             reference, input.executedQuote, input.targetAmount - input.filledAmount, residual, commission,
             if input.side.Sell? then input.executedQuote + residual - reference - commission
             else reference - input.executedQuote - residual - commission,
             realizedAt))
  }

  method CalculateHedgeNetPnl(input: PnlInput, fills: seq<Fill>, realizedAt: nat) returns (result: Option<NetPnl>)
    ensures result == NetPnlOf(input, fills, realizedAt)
  {
    if input.filledAmount > input.targetAmount { return None; }
    var reference := ReferenceScaled(input);
    var residual := ResidualQuote(input);
    var commission: nat := 0;
    var unvalued: set<string> := {};
    for k := 0 to |fills|
      invariant commission == TotalCharge(fills[..k], input)
      invariant unvalued == UnvaluedAssets(fills[..k], input)
    {
      var fill := fills[k];
      assert fills[..k + 1][..k] == fills[..k];
      UnvaluedAppend(fills[..k], fill, input);
      assert fills[..k + 1] == fills[..k] + [fill];
      if fill.commission == 0 {
      } else if fill.commissionAsset == input.quoteAsset {
        commission := commission + DivCeil(fill.commission, Pow10(18));
      } else if fill.commissionAsset == input.baseAsset {
        commission := commission + DivCeil(Times(fill.quoteQuantity, fill.commission), fill.quantity);
      } else {
        unvalued := unvalued + {fill.commissionAsset};
      }
    }
    assert fills[..|fills|] == fills;
    if unvalued != {} { return Some(Unavailable(UnvaluedCommissionAsset, unvalued, realizedAt)); }
    var net := if input.side.Sell? then input.executedQuote + residual - reference - commission
               else reference - input.executedQuote - residual - commission;
    result := Some(Complete(reference, input.executedQuote, input.targetAmount - input.filledAmount, residual,
                            commission, net, realizedAt));
  }

  lemma UnvaluedAppend(fills: seq<Fill>, f: Fill, input: PnlInput)
    ensures UnvaluedAssets(fills + [f], input) ==
            UnvaluedAssets(fills, input) + if Unvalued(f, input) then {f.commissionAsset} else {}
  {
    var more := fills + [f];
    assert forall g :: g in more <==> g in fills || g == f;
  }

  // ---------------------------------------------------------------- order of the fills

  lemma {:induction false} TotalChargeWithout(fills: seq<Fill>, k: nat, input: PnlInput)
    requires k < |fills|
    ensures TotalCharge(fills, input) == TotalCharge(fills[..k] + fills[k + 1..], input) + Charge(fills[k], input)
  {
    var last := |fills| - 1;
    if k == last {
      assert fills[..k] + fills[k + 1..] == fills[..last];
    } else {
      var rest := fills[..k] + fills[k + 1..];
      assert rest[|rest| - 1] == fills[last];
      assert rest[..|rest| - 1] == fills[..last][..k] + fills[..last][k + 1..];
      TotalChargeWithout(fills[..last], k, input);
    }
  }

  lemma WithoutOne<T>(s: seq<T>, k: nat)
    requires k < |s|
    ensures multiset(s) == multiset(s[..k] + s[k + 1..]) + multiset{s[k]}
  {
    assert s == s[..k] + ([s[k]] + s[k + 1..]);
  }

  /** Taking one equal element out of two permutations leaves permutations. */
  lemma BothWithoutOne<T>(a: seq<T>, b: seq<T>) returns (k: nat)
    requires a != [] && multiset(a) == multiset(b)
    ensures k < |b| && b[k] == a[|a| - 1] && multiset(a[..|a| - 1]) == multiset(b[..k] + b[k + 1..])
  {
    var last := |a| - 1;
    assert a[last] in multiset(b);
    k :| 0 <= k < |b| && b[k] == a[last];
    WithoutOne(a, last);
    WithoutOne(b, k);
    assert a[..last] + a[last + 1..] == a[..last];
    CancelOne(multiset(a[..last]), multiset(b[..k] + b[k + 1..]), a[last]);
  }

  lemma CancelOne<T>(m: multiset<T>, n: multiset<T>, x: T)
    requires m + multiset{x} == n + multiset{x}
    ensures m == n
  {
    assert m == (m + multiset{x}) - multiset{x};
    assert n == (n + multiset{x}) - multiset{x};
  }

  lemma {:induction false} TotalChargePermutes(a: seq<Fill>, b: seq<Fill>, input: PnlInput)
    requires multiset(a) == multiset(b)
    ensures TotalCharge(a, input) == TotalCharge(b, input)
  {
    if a == [] {
      assert |multiset(b)| == 0;
    } else {
      var k := BothWithoutOne(a, b);
      hide Charge;
      TotalChargePermutes(a[..|a| - 1], b[..k] + b[k + 1..], input);
      TotalChargeWithout(b, k, input);
    }
  }

  /** The outcome does not depend on the order in which the venue listed the fills. */
  lemma NetPnlOrderIndependent(a: seq<Fill>, b: seq<Fill>, input: PnlInput, realizedAt: nat)
    requires multiset(a) == multiset(b)
    ensures NetPnlOf(input, a, realizedAt) == NetPnlOf(input, b, realizedAt)
  {
    TotalChargePermutes(a, b, input);
    assert forall f :: f in a <==> f in multiset(a);
    assert forall f :: f in b <==> f in multiset(b);
    assert forall f :: f in a <==> f in b;
    assert UnvaluedAssets(a, input) == UnvaluedAssets(b, input);
  }

  // ---------------------------------------------------------------- the exact value

  /** Commission without rounding, in units of 10^-18 quote. */
  function ExactCharge(f: Fill, input: PnlInput): real {
    if f.commission == 0 then 0.0
    else if f.commissionAsset == input.quoteAsset then Ratio(f.commission, Pow10(18))
    else if f.commissionAsset == input.baseAsset then Ratio(Times(f.quoteQuantity, f.commission), f.quantity)
    else 0.0
  }

  function ExactTotalCharge(fills: seq<Fill>, input: PnlInput): real {
    if fills == [] then 0.0
    else ExactTotalCharge(fills[..|fills| - 1], input) + ExactCharge(fills[|fills| - 1], input)
  }

  /** Value of the whole target at the execution average, without rounding. */
  function ExactTargetValue(input: PnlInput): real {
    Ratio(Times(input.executedQuote, input.targetAmount), input.filledAmount)
  }

  function ExactNet(input: PnlInput, fills: seq<Fill>): real {
    (if input.side.Sell? then ExactTargetValue(input) - ReferenceScaled(input) as real
     else ReferenceScaled(input) as real - ExactTargetValue(input)) - ExactTotalCharge(fills, input)
  }

  function ChargedFills(fills: seq<Fill>): nat {
    if fills == [] then 0
    else ChargedFills(fills[..|fills| - 1]) + if fills[|fills| - 1].commission == 0 then 0 else 1
  }

  lemma ChargeRoundsUp(f: Fill, input: PnlInput)
    ensures ExactCharge(f, input) <= Charge(f, input) as real
    ensures Charge(f, input) as real <= ExactCharge(f, input) + if f.commission == 0 then 0.0 else 1.0
  {
    hide Ratio, Times, Pow10;
    RatioCeil(f.commission, Pow10(18));
    RatioCeil(Times(f.quoteQuantity, f.commission), f.quantity);
  }

  lemma {:induction false} TotalChargeRoundsUp(fills: seq<Fill>, input: PnlInput)
    ensures ExactTotalCharge(fills, input) <= TotalCharge(fills, input) as real
    ensures TotalCharge(fills, input) as real <= ExactTotalCharge(fills, input) + ChargedFills(fills) as real
  {
    hide Charge, ExactCharge;
    if fills != [] {
      TotalChargeRoundsUp(fills[..|fills| - 1], input);
      ChargeRoundsUp(fills[|fills| - 1], input);
    }
  }

  /** Executed quote plus the rounded residual, against the exact value of the whole target. */
  lemma ResidualRounding(input: PnlInput)
    requires input.filledAmount <= input.targetAmount
    ensures var kept := input.executedQuote as real + ResidualQuote(input) as real;
            if input.side.Sell? then kept <= ExactTargetValue(input) < kept + 1.0
            else ExactTargetValue(input) <= kept < ExactTargetValue(input) + 1.0
  {
    hide Ratio, Times;
    var q, b, f := input.executedQuote, input.targetAmount, input.filledAmount;
    var owed := Times(q, b - f);
    RatioFloor(owed, f);
    RatioCeil(owed, f);
    TimesDistributes(q, f, b - f);
    RatioAdd(Times(q, f), owed, f);
    TimesWhole(q, f);
  }

  /** The computed net PnL never exceeds the exact rational value, and falls short of it by less than one
      unit of 10^-18 for the residual plus one for each fill with a non-zero commission. */
  lemma ConservativePnl(input: PnlInput, fills: seq<Fill>, realizedAt: nat)
    requires input.filledAmount <= input.targetAmount
    requires UnvaluedAssets(fills, input) == {}
    ensures var result := NetPnlOf(input, fills, realizedAt);
            && result.Some? && result.value.Complete?
            && result.value.net as real <= ExactNet(input, fills)
            && ExactNet(input, fills) - result.value.net as real < 1.0 + ChargedFills(fills) as real
  {
    hide ResidualQuote, ReferenceScaled, ExactTargetValue, TotalCharge, ExactTotalCharge;
    ResidualRounding(input);
    TotalChargeRoundsUp(fills, input);
  }

  // ---------------------------------------------------------------- worst-case loss

  /** The venue executed the filled amount at or better than the limit price on average. */
  predicate AtOrBetter(side: Side, executedQuote: nat, filledAmount: nat, limit: nat, tokenDecimals: nat) {
    if side.Sell? then Times(limit, filledAmount) <= Times(executedQuote, Pow10(tokenDecimals))
    else Times(executedQuote, Pow10(tokenDecimals)) <= Times(limit, filledAmount)
  }

  /** Slippage allowance on the reference value plus one tick on the whole base amount, in units of
      10^-18 quote; unit is 10^tokenDecimals. */
  function AllowedLoss(reference: nat, slippageBps: nat, tick: nat, target: nat, unit: nat): real
    requires unit > 0
  {
    Ratio(Times(reference, slippageBps), BPS) + Ratio(Times(tick, target), unit)
  }

  /** The exact adjusted price n / d, cross-multiplied: the reference value per base unit times the
      slippage factor. */
  lemma AdjustedAsReference(side: Side, base: nat, reference: nat, route: Route)
    requires base > 0
    ensures Times(AdjustedNumerator(side, reference, route), Times(base, BPS))
            == Times(AdjustedDenominator(base, route),
                     Times(Times(Times(reference, Pow10(18 - route.quoteTokenDecimals)), SlippageFactor(side, route)),
                           Pow10(route.tokenDecimals)))
  {
    PowAdd(18 - route.quoteTokenDecimals, route.quoteTokenDecimals);
    hide Times, Pow10, SlippageFactor;
    TimesRearranged(reference, Pow10(route.tokenDecimals), Pow10(18 - route.quoteTokenDecimals),
                    Pow10(route.quoteTokenDecimals), SlippageFactor(side, route), base, Pow10(18), BPS);
  }

  lemma TimesRearranged(r: nat, t: nat, a: nat, b: nat, p: nat, x: nat, s: nat, y: nat)
    requires s == a * b
    ensures Times(Times(Times(Times(r, t), s), p), Times(x, y))
            == Times(Times(Times(x, b), y), Times(Times(Times(r, a), p), t))
  {
    assert Times(Times(Times(r, t), s), p) == r * t * (a * b) * p;
    assert Times(Times(Times(r, a), p), t) == r * a * p * t;
    assert Times(Times(x, b), y) == x * b * y;
    ProductIdentity(r, t, a, b, p, x, y);
  }

  lemma ProductIdentity(r: int, t: int, a: int, b: int, p: int, x: int, y: int)
    ensures (r * t * (a * b) * p) * (x * y) == (x * b * y) * (r * a * p * t)
  {
  }

  /** From n < k * d (or above it) and n * (x * y) == d * (v * u): v * u < k * x * y. */
  lemma CancelDenominator(n: nat, d: nat, k: int, x: nat, y: nat, vu: nat)
    requires d > 0 && x > 0 && y > 0
    requires Times(n, Times(x, y)) == Times(d, vu)
    ensures n < k * d ==> vu < k * Times(x, y)
    ensures k * d < n ==> k * Times(x, y) < vu
  {
    var xy := Times(x, y);
    assert n * xy == d * vu;
    assert (k * d) * xy == d * (k * xy);
    if n < k * d {
      MulGap(n, k * d, xy);
      CancelLess(vu, k * xy, d);
    }
    if k * d < n {
      MulGap(k * d, n, xy);
      CancelLess(k * xy, vu, d);
    }
  }

  lemma CancelLess(a: int, b: int, d: nat)
    requires d > 0
    requires d * a < d * b
    ensures a < b
  {
    if b <= a { MulMonotone(b, a, d); }
  }

  /** A price k per base unit, against the value v of x base units: both as fractions. */
  lemma PriceAgainstValue(k: int, x: nat, y: nat, v: nat, u: nat)
    requires y > 0 && u > 0
    ensures Times(v, u) < k * Times(x, y) ==> Ratio(v, y) < Ratio(k * x, u)
    ensures k * Times(x, y) < Times(v, u) ==> Ratio(k * x, u) < Ratio(v, y)
  {
    assert k * Times(x, y) == (k * x) * y;
    assert Times(v, u) == v * u;
    RatioLess(v, y, k * x, u);
    RatioLess(k * x, u, v, y);
  }

  /** An average execution price at or beyond the limit, as values of x base units. */
  lemma ExecutionAgainstLimit(limit: nat, filled: nat, executed: nat, u: nat, x: nat)
    requires filled > 0 && u > 0
    ensures Times(limit, filled) <= Times(executed, u) ==> Ratio(Times(limit, x), u) <= Ratio(Times(executed, x), filled)
    ensures Times(executed, u) <= Times(limit, filled) ==> Ratio(Times(executed, x), filled) <= Ratio(Times(limit, x), u)
  {
    var lf, eu := limit * filled, executed * u;
    if lf <= eu { MulMonotone(lf, eu, x); }
    if eu <= lf { MulMonotone(eu, lf, x); }
    assert lf * x == (limit * x) * filled;
    assert eu * x == (executed * x) * u;
    RatioLess(Times(executed, x), filled, Times(limit, x), u);
    RatioLess(Times(limit, x), u, Times(executed, x), filled);
  }

  /** (limit +/- tick) * x over u, split. */
  lemma TickSplit(limit: nat, tick: nat, x: nat, u: nat)
    requires u > 0
    ensures Ratio((limit + tick) * x, u) == Ratio(Times(limit, x), u) + Ratio(Times(tick, x), u)
    ensures Ratio((limit - tick) * x, u) == Ratio(Times(limit, x), u) - Ratio(Times(tick, x), u)
  {
    hide Ratio;
    assert (limit + tick) * x == Times(limit, x) + Times(tick, x);
    assert (limit - tick) * x == Times(limit, x) - Times(tick, x);
    RatioAdd(Times(limit, x), Times(tick, x), u);
    RatioAdd((limit - tick) * x, Times(tick, x), u);
  }

  /** The slippage factor applied to the reference: the reference plus or minus its allowance. */
  lemma SlippageShare(side: Side, reference: nat, route: Route)
    ensures Ratio(Times(reference, SlippageFactor(side, route)), BPS)
            == reference as real + (if side.Buy? then 1.0 else -1.0) * Ratio(Times(reference, route.maxSlippageBps), BPS)
  {
    hide Ratio;
    var s := route.maxSlippageBps;
    TimesWhole(reference, BPS);
    TimesDistributes(reference, BPS, s);
    RatioAdd(Times(reference, BPS), Times(reference, s), BPS);
    if side.Sell? {
      TimesDistributes(reference, BPS - s, s);
      RatioAdd(Times(reference, BPS - s), Times(reference, s), BPS);
    }
  }

  /** The exact value of the whole target stays within the allowed loss of the reference value. */
  lemma TargetValueBound(input: PnlInput, route: Route)
    requires input.quoteTokenDecimals == route.quoteTokenDecimals
    requires LimitPrice(input.side, input.targetAmount, input.settlementReferenceAmount, route).Some?
    requires AtOrBetter(input.side, input.executedQuote, input.filledAmount,
                        LimitPrice(input.side, input.targetAmount, input.settlementReferenceAmount, route).value,
                        route.tokenDecimals)
    ensures var loss := AllowedLoss(ReferenceScaled(input), route.maxSlippageBps, route.priceTick,
                                    input.targetAmount, Pow10(route.tokenDecimals));
            if input.side.Sell? then ExactTargetValue(input) > ReferenceScaled(input) as real - loss
            else ExactTargetValue(input) < ReferenceScaled(input) as real + loss
  {
    hide Ratio, Times, Pow10, AdjustedNumerator, AdjustedDenominator, SlippageFactor, RoundToTick;
    var side, target, reference := input.side, input.targetAmount, input.settlementReferenceAmount;
    var limit, tick := LimitPrice(side, target, reference, route).value, route.priceTick;
    var n, d := AdjustedNumerator(side, reference, route), AdjustedDenominator(target, route);
    var unit, value := Pow10(route.tokenDecimals), Times(ReferenceScaled(input), SlippageFactor(side, route));
    RoundToTickWithin(side, n, d, tick);
    AdjustedAsReference(side, target, reference, route);
    var sign: int := if side.Sell? then 1 else -1;
    var k := limit + sign * tick;
    CancelDenominator(n, d, k, target, BPS, Times(value, unit));
    PriceAgainstValue(k, target, BPS, value, unit);
    ExecutionAgainstLimit(limit, input.filledAmount, input.executedQuote, unit, target);
    TickSplit(limit, tick, target, unit);
    SlippageShare(side, ReferenceScaled(input), route);
  }

  /** Worst-case loss: when the filled amount traded at or better than the limit price, the net PnL stays
      above minus the slippage allowance, one tick on the base amount, the commissions and one rounding
      unit, for both sides, any decimals and any fill. */
  lemma WorstCaseLoss(input: PnlInput, route: Route, fills: seq<Fill>, realizedAt: nat)
    requires input.filledAmount <= input.targetAmount
    requires UnvaluedAssets(fills, input) == {}
    requires input.quoteTokenDecimals == route.quoteTokenDecimals
    requires LimitPrice(input.side, input.targetAmount, input.settlementReferenceAmount, route).Some?
    requires AtOrBetter(input.side, input.executedQuote, input.filledAmount,
                        LimitPrice(input.side, input.targetAmount, input.settlementReferenceAmount, route).value,
                        route.tokenDecimals)
    ensures var result := NetPnlOf(input, fills, realizedAt);
            && result.Some? && result.value.Complete?
            && result.value.net as real > - AllowedLoss(ReferenceScaled(input), route.maxSlippageBps, route.priceTick,
                                                        input.targetAmount, Pow10(route.tokenDecimals))
                                          - TotalCharge(fills, input) as real - 1.0
  {
    hide AllowedLoss, ExactTargetValue, ReferenceScaled, ResidualQuote, TotalCharge, AtOrBetter, LimitPrice;
    TargetValueBound(input, route);
    ResidualRounding(input);
  }
}
