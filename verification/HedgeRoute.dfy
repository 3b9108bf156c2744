/** Hedge routes: step quantisation and the slippage-bounded limit price
    (backend/src/modules/hedge/hedge-route.ts).  Prices and ticks are integers in units of 10^-18. */
module HedgeRoute {
  import opened Arithmetic

  datatype Option<+T> = None | Some(value: T)

  datatype Side = Buy | Sell

  datatype RouteFields = RouteFields(
    symbol: string,
    baseAsset: string,
    quoteAsset: string,
    quoteToken: nat,
    tokenDecimals: nat,
    quoteTokenDecimals: nat,
    stepSizeRaw: nat,
    priceTick: nat,
    maxSlippageBps: nat)

  /** What HedgeRouteTable's constructor checks of every route. */
  predicate ValidRoute(r: RouteFields) {
    && r.baseAsset != r.quoteAsset
    && r.tokenDecimals <= 36
    && r.quoteTokenDecimals <= 18
    && r.stepSizeRaw > 0
    && r.priceTick > 0
    && r.maxSlippageBps <= 1_000
  }

  type Route = r: RouteFields | ValidRoute(r)
    witness RouteFields("ETHUSDT", "ETH", "USDT", 1, 18, 6, 1, 1, 0)

  const BPS: nat := 10_000

  /** The amount rounded down to the venue step; None is HEDGE_AMOUNT_BELOW_STEP_SIZE. */
  function Quantize(amount: nat, step: nat): (q: Option<nat>)
    requires amount > 0 && step > 0
    ensures q.Some? ==> q.value > 0
  {
    var quantized := amount / step * step;
    if quantized == 0 then None else Some(quantized)
  }

  /** The quantised amount is the greatest multiple of the step within the amount, and the amount is
      refused exactly when it is below one step. */
  lemma QuantizeGreatest(amount: nat, step: nat, m: nat)
    requires amount > 0 && step > 0
    ensures Quantize(amount, step).None? <==> amount < step
    ensures Quantize(amount, step).Some? ==>
              var q := Quantize(amount, step).value;
              && q % step == 0
              && amount - step < q <= amount
              && (m % step == 0 && m <= amount ==> m <= q)
  {
    FloorBounds(amount, step);
    FloorGreatest(amount, step, 1);
    MultipleHasNoRemainder(amount / step, step);
    if amount / step >= 1 { MulMonotone(1, amount / step, step); }
    if m % step == 0 && m <= amount {
      assert m == (m / step) * step;
      FloorGreatest(amount, step, m / step);
      MulMonotone(m / step, amount / step, step);
    }
  }

  lemma MultipleHasNoRemainder(k: nat, d: nat)
    requires d > 0
    ensures (k * d) % d == 0
  {
    var q := (k * d) / d;
    FloorBounds(k * d, d);
    FloorGreatest(k * d, d, k);
    if q > k { MulGap(k, q, d); }
  }

  function SlippageFactor(side: Side, route: Route): (bps: nat)
    ensures bps > 0
  {
    if side.Buy? then BPS + route.maxSlippageBps else BPS - route.maxSlippageBps
  }

  /** Slippage-adjusted price as a fraction: Numerator / Denominator units of 10^-18 quote per base. */
  function AdjustedNumerator(side: Side, reference: nat, route: Route): (n: nat)
    ensures reference > 0 ==> n > 0
  {
    Times(Times(Times(reference, Pow10(route.tokenDecimals)), Pow10(18)), SlippageFactor(side, route))
  }

  function AdjustedDenominator(base: nat, route: Route): (d: nat)
    requires base > 0
    ensures d > 0
  {
    Times(Times(base, Pow10(route.quoteTokenDecimals)), BPS)
  }

  /** n / d rounded to an integer and then to a multiple of the tick: up for a buy, down for a sell. */
  function RoundToTick(side: Side, n: nat, d: nat, tick: nat): nat
    requires d > 0 && tick > 0
  {
    if side.Buy? then Times(DivCeil(DivCeil(n, d), tick), tick) else Times(n / d / tick, tick)
  }

  /** m lies at or beyond n / d on the side that rounding favours. */
  predicate Beyond(side: Side, n: nat, d: nat, m: nat) {
    if side.Buy? then n <= m * d else m * d <= n
  }

  /** Rounding twice loses nothing: the result is the tick multiple nearest to the exact quotient
      among those at or above it (buy) or at or below it (sell). */
  lemma RoundToTickNearest(side: Side, n: nat, d: nat, tick: nat, m: nat)
    requires d > 0 && tick > 0
    ensures var q := RoundToTick(side, n, d, tick);
            && q % tick == 0
            && Beyond(side, n, d, q)
            && (m % tick == 0 && Beyond(side, n, d, m) ==> if side.Buy? then q <= m else m <= q)
  {
    if side.Buy? { RoundUpNearest(n, d, tick, m); } else { RoundDownNearest(n, d, tick, m); }
  }

  lemma RoundUpNearest(n: nat, d: nat, tick: nat, m: nat)
    requires d > 0 && tick > 0
    ensures var q := Times(DivCeil(DivCeil(n, d), tick), tick);
            q % tick == 0 && n <= q * d && (m % tick == 0 && n <= m * d ==> q <= m)
  {
    hide Times, DivCeil;
    var u := DivCeil(n, d);
    CeilMultiple(u, tick, m);
    CeilLeast(n, d, Times(DivCeil(u, tick), tick));
    CeilLeast(n, d, m);
  }

  /** The least multiple at or above u. */
  lemma CeilMultiple(u: nat, t: nat, m: nat)
    requires t > 0
    ensures var q := Times(DivCeil(u, t), t);
            q % t == 0 && u <= q && (m % t == 0 && u <= m ==> q <= m)
  {
    MultipleHasNoRemainder(DivCeil(u, t), t);
    CeilBounds(u, t);
    hide DivCeil;
    if m % t == 0 && u <= m {
      FloorBounds(m, t);
      CeilLeast(u, t, m / t);
      MulMonotone(DivCeil(u, t), m / t, t);
    }
  }

  lemma RoundDownNearest(n: nat, d: nat, tick: nat, m: nat)
    requires d > 0 && tick > 0
    ensures var q := Times(n / d / tick, tick);
            q % tick == 0 && q * d <= n && (m % tick == 0 && m * d <= n ==> m <= q)
  {
    hide Times;
    var u := n / d;
    FloorMultiple(u, tick, m);
    FloorGreatest(n, d, Times(u / tick, tick));
    FloorGreatest(n, d, m);
  }

  /** The greatest multiple at or below u. */
  lemma FloorMultiple(u: nat, t: nat, m: nat)
    requires t > 0
    ensures var q := Times(u / t, t);
            q % t == 0 && q <= u && (m % t == 0 && m <= u ==> m <= q)
  {
    MultipleHasNoRemainder(u / t, t);
    FloorBounds(u, t);
    if m % t == 0 && m <= u {
      FloorBounds(m, t);
      FloorGreatest(u, t, m / t);
      MulMonotone(m / t, u / t, t);
    }
  }

  /** A positive quotient rounds up to something positive; rounding down reaches zero exactly when even
      one tick lies beyond the quotient. */
  lemma RoundToTickZero(side: Side, n: nat, d: nat, tick: nat)
    requires d > 0 && tick > 0 && n > 0
    ensures RoundToTick(side, n, d, tick) == 0 <==> side.Sell? && !Beyond(side, n, d, tick)
  {
    hide RoundToTick;
    RoundToTickNearest(side, n, d, tick, tick);
  }

  /** The rounded value strays from the exact quotient by less than one tick. */
  lemma RoundToTickWithin(side: Side, n: nat, d: nat, tick: nat)
    requires d > 0 && tick > 0
    ensures var q := RoundToTick(side, n, d, tick);
            if side.Buy? then n > 0 ==> (q - tick) * d < n else n < (q + tick) * d
  {
    hide RoundToTick;
    var q := RoundToTick(side, n, d, tick);
    RoundToTickNearest(side, n, d, tick, q + tick);
    NextMultiple(q, tick);
    if side.Buy? {
      if q >= tick {
        RoundToTickNearest(side, n, d, tick, q - tick);
        PreviousMultiple(q, tick);
      } else if n > 0 {
        MulGap(q - tick, 0, d);
      }
    }
  }

  /** The limit price in units of 10^-18; None is HEDGE_LIMIT_PRICE_BELOW_TICK. */
  function LimitPrice(side: Side, base: nat, reference: nat, route: Route): Option<nat>
    requires base > 0 && reference > 0
  {
    var quantized := RoundToTick(side, AdjustedNumerator(side, reference, route),
                                 AdjustedDenominator(base, route), route.priceTick);
    if quantized == 0 then None else Some(quantized)
  }

  /** Price m, in units of 10^-18, is at or beyond the exact price of the reference amount per base amount, in
      whole tokens, with the route's slippage added for a buy and taken off for a sell. */
  predicate WithinSlippage(side: Side, base: nat, reference: nat, route: Route, m: nat)
    requires base > 0
  {
    var value := reference * Pow10(route.tokenDecimals) * Pow10(18);
    var unit := base * Pow10(route.quoteTokenDecimals) * 10_000;
    if side.Buy? then value * (10_000 + route.maxSlippageBps) <= m * unit
    else m * unit <= value * (10_000 - route.maxSlippageBps)
  }

  /** A buy limit is the least tick multiple at or above the exact slippage-adjusted price and a sell
      limit the greatest at or below it, although the code rounds twice; a limit is refused exactly
      when a sell price would have to be below one tick. */
  lemma LimitPriceOptimal(side: Side, base: nat, reference: nat, route: Route, m: nat)
    requires base > 0 && reference > 0
    ensures LimitPrice(side, base, reference, route).None? <==>
              side.Sell? && !WithinSlippage(side, base, reference, route, route.priceTick)
    ensures LimitPrice(side, base, reference, route).Some? ==>
              var q := LimitPrice(side, base, reference, route).value;
              && q > 0
              && q % route.priceTick == 0
              && WithinSlippage(side, base, reference, route, q)
              && (m % route.priceTick == 0 && WithinSlippage(side, base, reference, route, m) ==>
                    if side.Buy? then q <= m else m <= q)
  {
    hide RoundToTick, AdjustedNumerator, AdjustedDenominator;
    var n, d := AdjustedNumerator(side, reference, route), AdjustedDenominator(base, route);
    RoundToTickNearest(side, n, d, route.priceTick, m);
    RoundToTickZero(side, n, d, route.priceTick);
    hide WithinSlippage, Beyond;
    SlippageIsBeyond(side, base, reference, route, route.priceTick);
    SlippageIsBeyond(side, base, reference, route, m);
    SlippageIsBeyond(side, base, reference, route, RoundToTick(side, n, d, route.priceTick));
  }

  /** Every limit, of whatever route the table admits, stays within ten percent of the reference price, but for
      less than one tick. */
  lemma LimitWithinTenPercent(side: Side, base: nat, reference: nat, route: Route)
    requires base > 0 && reference > 0 && LimitPrice(side, base, reference, route).Some?
    ensures var q := LimitPrice(side, base, reference, route).value;
            var value := reference * Pow10(route.tokenDecimals) * Pow10(18);
            var unit := base * Pow10(route.quoteTokenDecimals);
            if side.Buy? then 10 * ((q - route.priceTick) * unit) < 11 * value
            else 9 * value < 10 * ((q + route.priceTick) * unit)
  {
    var q := LimitPrice(side, base, reference, route).value;
    RoundToTickWithin(side, AdjustedNumerator(side, reference, route), AdjustedDenominator(base, route), route.priceTick);
    hide Pow10, RoundToTick;
    TenPercent(reference * Pow10(route.tokenDecimals) * Pow10(18), route.maxSlippageBps, q - route.priceTick,
               base * Pow10(route.quoteTokenDecimals));
    TenPercent(reference * Pow10(route.tokenDecimals) * Pow10(18), route.maxSlippageBps, q + route.priceTick,
               base * Pow10(route.quoteTokenDecimals));
  }

  lemma TenPercent(value: nat, bps: nat, k: int, unit: nat)
    requires bps <= 1_000
    ensures k * (unit * 10_000) < value * (10_000 + bps) ==> 10 * (k * unit) < 11 * value
    ensures value * (10_000 - bps) < k * (unit * 10_000) ==> 9 * value < 10 * (k * unit)
  {
    assert k * (unit * 10_000) == (k * unit) * 10_000;
    MulMonotone(bps, 1_000, value);
    assert value * (10_000 + bps) == value * 10_000 + bps * value;
    assert value * (10_000 - bps) == value * 10_000 - bps * value;
  }

  lemma SlippageIsBeyond(side: Side, base: nat, reference: nat, route: Route, m: nat)
    requires base > 0
    ensures WithinSlippage(side, base, reference, route, m)
            <==> Beyond(side, AdjustedNumerator(side, reference, route), AdjustedDenominator(base, route), m)
  {
    hide Pow10;
  }

  lemma NextMultiple(q: nat, t: nat)
    requires t > 0 && q % t == 0
    ensures (q + t) % t == 0
  {
    assert q == (q / t) * t;
    MultipleHasNoRemainder(q / t + 1, t);
    assert (q / t + 1) * t == q + t;
  }

  lemma PreviousMultiple(q: nat, t: nat)
    requires t > 0 && q % t == 0 && q >= t
    ensures (q - t) % t == 0
  {
    assert q == (q / t) * t;
    FloorGreatest(q, t, 1);
    MultipleHasNoRemainder(q / t - 1, t);
    assert (q / t - 1) * t == q - t;
  }
}
