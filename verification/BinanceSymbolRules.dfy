/** Venue filters (backend/src/modules/hedge/binance-symbol-rules.ts): the exact decimal operations,
    validateRoute and validateOrder, and that orders built by hedge-route.ts satisfy them. */
module BinanceSymbolRules {
  import opened Arithmetic
  import opened DecimalText
  import opened HedgeRoute
  import opened HedgeText

  datatype DecimalValue = DecimalValue(coefficient: nat, scale: nat)

  datatype Rules = Rules(
    symbol: string,
    trading: bool,
    spotAllowed: bool,
    limitAllowed: bool,
    baseAsset: string,
    quoteAsset: string,
    minPrice: DecimalValue,
    maxPrice: DecimalValue,
    tickSize: DecimalValue,
    minQuantity: DecimalValue,
    maxQuantity: DecimalValue,
    stepSize: DecimalValue,
    minNotional: Option<DecimalValue>,
    maxNotional: Option<DecimalValue>)

  datatype RouteCheck = RoutePass | NotTrading | Unsupported | AssetMismatch | StepSizeMismatch | PriceTickMismatch

  datatype OrderCheck =
    | OrderPass
    | RulesInvalid
    | BelowMinQuantity
    | AboveMaxQuantity
    | StepSizeInvalid
    | PriceRangeInvalid
    | PriceTickInvalid
    | BelowMinNotional
    | AboveMaxNotional

  const MAX_DECIMAL_LENGTH: nat := 80

  predicate Parseable(s: string) { IsDecimal(s) && |s| <= MAX_DECIMAL_LENGTH }

  function ParseDecimal(s: string): DecimalValue
    requires Parseable(s)
  {
    DecimalValue(Value(IntegerPart(s) + FractionPart(s)), |FractionPart(s)|)
  }

  function Max(a: nat, b: nat): nat { if a >= b then a else b }

  /** The coefficient at a wider scale. */
  function AtScale(v: DecimalValue, scale: nat): nat
    requires v.scale <= scale
  {
    Times(v.coefficient, Pow10(scale - v.scale))
  }

  function CompareDecimal(left: DecimalValue, right: DecimalValue): int {
    var scale := Max(left.scale, right.scale);
    var l, r := AtScale(left, scale), AtScale(right, scale);
    if l < r then -1 else if l > r then 1 else 0
  }

  predicate IsDecimalMultiple(value: DecimalValue, step: DecimalValue) {
    var scale := Max(value.scale, step.scale);
    var v, s := AtScale(value, scale), AtScale(step, scale);
    s != 0 && v % s == 0
  }

  function MultiplyDecimal(left: DecimalValue, right: DecimalValue): DecimalValue {
    DecimalValue(Times(left.coefficient, right.coefficient), left.scale + right.scale)
  }

  function DecimalToRawUnits(v: DecimalValue, decimals: nat): Option<nat> {
    if v.scale <= decimals then Some(Times(v.coefficient, Pow10(decimals - v.scale)))
    else
      var divisor := Pow10(v.scale - decimals);
      if v.coefficient % divisor == 0 then Some(v.coefficient / divisor) else None
  }

  /** tickText is the route's configured price tick, as written. */
  function ValidateRoute(route: Route, tickText: string, rules: Rules): RouteCheck
    requires Parseable(tickText)
  {
    if !rules.trading then NotTrading
    else if !rules.spotAllowed || !rules.limitAllowed then Unsupported
    else if route.symbol != rules.symbol || route.baseAsset != rules.baseAsset || route.quoteAsset != rules.quoteAsset
    then AssetMismatch
    else if DecimalToRawUnits(rules.stepSize, route.tokenDecimals) != Some(route.stepSizeRaw) then StepSizeMismatch
    else if CompareDecimal(ParseDecimal(tickText), rules.tickSize) != 0 then PriceTickMismatch
    else RoutePass
  }

  function ValidateOrder(quantityText: string, priceText: string, rules: Rules): OrderCheck {
    if !Parseable(quantityText) || !Parseable(priceText) then RulesInvalid
    else
      var quantity, price := ParseDecimal(quantityText), ParseDecimal(priceText);
      if CompareDecimal(quantity, rules.minQuantity) < 0 then BelowMinQuantity
      else if CompareDecimal(quantity, rules.maxQuantity) > 0 then AboveMaxQuantity
      else if !IsDecimalMultiple(quantity, rules.stepSize) then StepSizeInvalid
      else if (rules.minPrice.coefficient != 0 && CompareDecimal(price, rules.minPrice) < 0) ||
              (rules.maxPrice.coefficient != 0 && CompareDecimal(price, rules.maxPrice) > 0) then PriceRangeInvalid
      else if !IsDecimalMultiple(price, rules.tickSize) then PriceTickInvalid
      else
        var notional := MultiplyDecimal(quantity, price);
        if rules.minNotional.Some? && CompareDecimal(notional, rules.minNotional.value) < 0 then BelowMinNotional
        else if rules.maxNotional.Some? && CompareDecimal(notional, rules.maxNotional.value) > 0 then AboveMaxNotional
        else OrderPass
  }

  // ---------------------------------------------------------------- the numbers compared

  lemma ScaleOrder(a: int, b: int, k: int)
    requires k > 0
    ensures a < b <==> a * k < b * k
  {
    if a < b { MulGap(a, b, k); } else { MulMonotone(b, a, k); }
  }

  /** The sign of compareDecimal is that of the numbers: a / 10^a.scale against b / 10^b.scale, cross-multiplied. */
  lemma CompareSign(a: DecimalValue, b: DecimalValue)
    ensures CompareDecimal(a, b) < 0 <==> a.coefficient * Pow10(b.scale) < b.coefficient * Pow10(a.scale)
    ensures CompareDecimal(a, b) > 0 <==> a.coefficient * Pow10(b.scale) > b.coefficient * Pow10(a.scale)
  {
    var m := Max(a.scale, b.scale);
    var k := a.scale + b.scale - m;
    WidenedTimes(a, m, k);
    WidenedTimes(b, m, k);
    hide Pow10, AtScale;
    ScaleOrder(AtScale(a, m), AtScale(b, m), Pow10(k));
    ScaleOrder(AtScale(b, m), AtScale(a, m), Pow10(k));
  }

  lemma WidenedTimes(v: DecimalValue, scale: nat, k: nat)
    requires v.scale <= scale
    ensures AtScale(v, scale) * Pow10(k) == v.coefficient * Pow10(scale - v.scale + k)
  {
    PowAdd(scale - v.scale, k);
    hide Pow10;
    Associate(v.coefficient, Pow10(scale - v.scale), Pow10(k));
  }

  lemma Associate(a: int, b: int, c: int)
    ensures (a * b) * c == a * (b * c)
  {
  }

  lemma Swap(a: int, b: int, c: int)
    ensures (a * b) * c == (a * c) * b
  {
  }

  /** A bound against a decimal, in the units of any scale wide enough for the decimal. */
  lemma AtMostInUnits(v: DecimalValue, scale: nat, bound: DecimalValue)
    requires v.scale <= scale
    ensures AtMost(v, bound) <==> AtScale(v, scale) * Pow10(bound.scale) <= bound.coefficient * Pow10(scale)
    ensures AtMost(bound, v) <==> bound.coefficient * Pow10(scale) <= AtScale(v, scale) * Pow10(bound.scale)
  {
    PowAdd(v.scale, scale - v.scale);
    hide Pow10;
    WidenedOrder(v.coefficient, Pow10(bound.scale), bound.coefficient, Pow10(v.scale), Pow10(scale - v.scale));
  }

  lemma WidenedOrder(a: int, x: int, b: int, y: int, k: int)
    requires k > 0
    ensures a * x <= b * y <==> (a * k) * x <= b * (y * k)
    ensures b * y <= a * x <==> b * (y * k) <= (a * k) * x
  {
    Swap(a, k, x);
    Associate(b, y, k);
    ScaleOrder(a * x, b * y, k);
    ScaleOrder(b * y, a * x, k);
  }

  /** The value of multiplyDecimal is the product of the values. */
  lemma ProductInUnits(a: DecimalValue, b: DecimalValue, scaleA: nat, scaleB: nat)
    requires a.scale <= scaleA && b.scale <= scaleB
    ensures MultiplyDecimal(a, b).scale <= scaleA + scaleB
    ensures AtScale(MultiplyDecimal(a, b), scaleA + scaleB) == AtScale(a, scaleA) * AtScale(b, scaleB)
  {
    var x, y := scaleA - a.scale, scaleB - b.scale;
    PowAdd(x, y);
    hide Pow10;
    assert scaleA + scaleB - MultiplyDecimal(a, b).scale == x + y;
    ProductOfProducts(a.coefficient, Pow10(x), b.coefficient, Pow10(y));
  }

  lemma ProductOfProducts(a: nat, x: nat, b: nat, y: nat)
    ensures (a * b) * (x * y) == (a * x) * (b * y)
  {
  }

  /** decimalToRawUnits gives the integer of units that is the number, if there is one. */
  lemma RawUnitsExact(v: DecimalValue, decimals: nat, raw: nat)
    ensures DecimalToRawUnits(v, decimals) == Some(raw) <==> v.coefficient * Pow10(decimals) == raw * Pow10(v.scale)
  {
    if v.scale <= decimals {
      PowAdd(decimals - v.scale, v.scale);
      hide Pow10;
      Associate(v.coefficient, Pow10(decimals - v.scale), Pow10(v.scale));
      SameScaled(v.coefficient * Pow10(decimals - v.scale), raw, Pow10(v.scale));
    } else {
      var divisor := Pow10(v.scale - decimals);
      PowAdd(v.scale - decimals, decimals);
      hide Pow10;
      Associate(raw, divisor, Pow10(decimals));
      SameScaled(v.coefficient, raw * divisor, Pow10(decimals));
      QuotientExact(v.coefficient, divisor, raw);
    }
  }

  lemma QuotientExact(n: nat, d: nat, q: nat)
    requires d > 0
    ensures n % d == 0 && n / d == q <==> n == q * d
  {
    if n == q * d {
      MultipleHasNoRemainder(q, d);
      ScaledQuotient(q, d);
    }
    FloorBounds(n, d);
  }

  lemma SameScaled(a: int, b: int, k: int)
    requires k > 0
    ensures a == b <==> a * k == b * k
  {
    ScaleOrder(a, b, k);
    ScaleOrder(b, a, k);
  }

  lemma ScaledQuotient(a: nat, d: nat)
    requires d > 0
    ensures (a * d) / d == a
  {
    FloorGreatest(a * d, d, a);
    FloorGreatest(a * d, d, a + 1);
    assert (a + 1) * d == a * d + d;
  }

  /** isDecimalMultiple judges the numbers: some whole number of steps is the value. */
  lemma MultipleOfStep(value: DecimalValue, step: DecimalValue)
    ensures IsDecimalMultiple(value, step) <==>
              && step.coefficient > 0
              && (value.coefficient * Pow10(step.scale)) % (step.coefficient * Pow10(value.scale)) == 0
  {
    if step.coefficient > 0 {
      var scale := value.scale + step.scale;
      MultipleAtAnyScale(value, step, scale);
      assert AtScale(value, scale) == value.coefficient * Pow10(step.scale);
      assert AtScale(step, scale) == step.coefficient * Pow10(value.scale);
    }
  }

  // ---------------------------------------------------------------- scale independence

  lemma AtScaleWiden(v: DecimalValue, scale: nat, wider: nat)
    requires v.scale <= scale <= wider
    ensures AtScale(v, wider) == Times(AtScale(v, scale), Pow10(wider - scale))
  {
    hide Pow10;
    PowAdd(scale - v.scale, wider - scale);
    TimesAssociates(v.coefficient, Pow10(scale - v.scale), Pow10(wider - scale));
  }

  lemma TimesAssociates(a: nat, b: nat, c: nat)
    ensures Times(Times(a, b), c) == Times(a, b * c)
  {
  }

  lemma MultipleScales(v: nat, s: nat, k: nat)
    requires s > 0 && k > 0
    ensures Times(s, k) > 0
    ensures v % s == 0 <==> Times(v, k) % Times(s, k) == 0
  {
    FloorScale(v, s, k);
    var q := v / s;
    assert v == q * s + v % s;
    assert v * k == q * (s * k) + (v % s) * k;
    assert v * k == (v * k) / (s * k) * (s * k) + (v * k) % (s * k);
    if v % s != 0 { MulMonotone(1, v % s, k); }
  }

  /** Being a multiple can be judged at any scale wide enough for both. */
  lemma MultipleAtAnyScale(value: DecimalValue, step: DecimalValue, scale: nat)
    requires value.scale <= scale && step.scale <= scale && step.coefficient > 0
    ensures AtScale(step, scale) > 0
    ensures IsDecimalMultiple(value, step) <==> AtScale(value, scale) % AtScale(step, scale) == 0
  {
    hide Pow10, Times;
    var m := Max(value.scale, step.scale);
    AtScaleWiden(value, m, scale);
    AtScaleWiden(step, m, scale);
    MultipleScales(AtScale(value, m), AtScale(step, m), Pow10(scale - m));
  }

  /** Equality can be judged at any scale wide enough for both. */
  lemma EqualAtAnyScale(a: DecimalValue, b: DecimalValue, scale: nat)
    requires a.scale <= scale && b.scale <= scale
    requires CompareDecimal(a, b) == 0
    ensures AtScale(a, scale) == AtScale(b, scale)
  {
    hide Pow10, Times;
    var m := Max(a.scale, b.scale);
    AtScaleWiden(a, m, scale);
    AtScaleWiden(b, m, scale);
  }

  /** A printed value parses to a decimal that is the same number. */
  lemma ParsedDecimal(s: string, decimals: nat)
    requires Parseable(s) && |FractionPart(s)| <= decimals
    ensures ParseDecimal(s).scale <= decimals
    ensures AtScale(ParseDecimal(s), decimals) == ScaledOf(s, decimals)
  {
    hide Pow10, Times, Value, Scaled, Numerator;
    NumeratorScaled(s, decimals);
    CoefficientIsNumerator(s);
  }

  lemma CoefficientIsNumerator(s: string)
    requires Parseable(s)
    ensures ParseDecimal(s).coefficient == Numerator(s)
  {
    hide Pow10, Value;
    ValueConcat(IntegerPart(s), FractionPart(s));
  }

  // ---------------------------------------------------------------- orders pass the filters

  lemma StepAsDecimal(step: DecimalValue, raw: nat, decimals: nat)
    requires DecimalToRawUnits(step, decimals) == Some(raw)
    ensures var scale := Max(step.scale, decimals);
            AtScale(step, scale) == Times(raw, Pow10(scale - decimals))
  {
    if step.scale <= decimals {
      assert Pow10(0) == 1;
    } else {
      var divisor := Pow10(step.scale - decimals);
      assert step.coefficient == (step.coefficient / divisor) * divisor;
    }
  }

  lemma QuantityIsStepMultiple(q: nat, s: string, route: Route, step: DecimalValue)
    requires q % route.stepSizeRaw == 0
    requires Parseable(s) && |FractionPart(s)| <= route.tokenDecimals && ScaledOf(s, route.tokenDecimals) == q
    requires step.coefficient > 0
    requires DecimalToRawUnits(step, route.tokenDecimals) == Some(route.stepSizeRaw)
    ensures IsDecimalMultiple(ParseDecimal(s), step)
  {
    hide Pow10, Times, AtScale, IsDecimalMultiple, ParseDecimal, DecimalToRawUnits;
    var d := route.tokenDecimals;
    var scale := Max(step.scale, d);
    ParsedDecimal(s, d);
    AtScaleWiden(ParseDecimal(s), d, scale);
    StepAsDecimal(step, route.stepSizeRaw, d);
    MultipleScales(q, route.stepSizeRaw, Pow10(scale - d));
    MultipleAtAnyScale(ParseDecimal(s), step, scale);
  }

  lemma PriceIsTickMultiple(price: nat, s: string, tick: nat, tickText: string, tickSize: DecimalValue)
    requires tick > 0 && price % tick == 0
    requires Parseable(s) && |FractionPart(s)| <= 18 && ScaledOf(s, 18) == price
    requires Parseable(tickText) && |FractionPart(tickText)| <= 18 && ScaledOf(tickText, 18) == tick
    requires tickSize.coefficient > 0
    requires CompareDecimal(ParseDecimal(tickText), tickSize) == 0
    ensures IsDecimalMultiple(ParseDecimal(s), tickSize)
  {
    hide Pow10, Times, AtScale, IsDecimalMultiple, ParseDecimal, CompareDecimal;
    var scale := Max(tickSize.scale, 18);
    ParsedDecimal(s, 18);
    ParsedDecimal(tickText, 18);
    AtScaleWiden(ParseDecimal(s), 18, scale);
    AtScaleWiden(ParseDecimal(tickText), 18, scale);
    EqualAtAnyScale(ParseDecimal(tickText), tickSize, scale);
    MultipleScales(price, tick, Pow10(scale - 18));
    MultipleAtAnyScale(ParseDecimal(s), tickSize, scale);
  }

  /** As numbers, a is at most b. */
  predicate AtMost(a: DecimalValue, b: DecimalValue) {
    a.coefficient * Pow10(b.scale) <= b.coefficient * Pow10(a.scale)
  }

  /** What validateOrder accepts, on the numbers: quantity, price and their product within the venue's ranges,
      quantity and price multiples of step and tick; and each refusal names what is violated. */
  lemma OrderChecks(quantityText: string, priceText: string, rules: Rules)
    requires Parseable(quantityText) && Parseable(priceText)
    ensures var quantity, price := ParseDecimal(quantityText), ParseDecimal(priceText);
            var notional := DecimalValue(Times(quantity.coefficient, price.coefficient), quantity.scale + price.scale);
            var check := ValidateOrder(quantityText, priceText, rules);
            && (check == OrderPass <==>
                  && AtMost(rules.minQuantity, quantity) && AtMost(quantity, rules.maxQuantity)
                  && (rules.minPrice.coefficient == 0 || AtMost(rules.minPrice, price))
                  && (rules.maxPrice.coefficient == 0 || AtMost(price, rules.maxPrice))
                  && (rules.minNotional.Some? ==> AtMost(rules.minNotional.value, notional))
                  && (rules.maxNotional.Some? ==> AtMost(notional, rules.maxNotional.value))
                  && IsDecimalMultiple(quantity, rules.stepSize) && IsDecimalMultiple(price, rules.tickSize))
            && check != RulesInvalid
            && (check == BelowMinQuantity ==> !AtMost(rules.minQuantity, quantity))
            && (check == AboveMaxQuantity ==> !AtMost(quantity, rules.maxQuantity))
            && (check == StepSizeInvalid ==> !IsDecimalMultiple(quantity, rules.stepSize))
            && (check == PriceRangeInvalid ==>
                  || (rules.minPrice.coefficient != 0 && !AtMost(rules.minPrice, price))
                  || (rules.maxPrice.coefficient != 0 && !AtMost(price, rules.maxPrice)))
            && (check == PriceTickInvalid ==> !IsDecimalMultiple(price, rules.tickSize))
            && (check == BelowMinNotional ==> rules.minNotional.Some? && !AtMost(rules.minNotional.value, notional))
            && (check == AboveMaxNotional ==> rules.maxNotional.Some? && !AtMost(notional, rules.maxNotional.value))
  {
    var quantity, price := ParseDecimal(quantityText), ParseDecimal(priceText);
    var notional := MultiplyDecimal(quantity, price);
    CompareSign(quantity, rules.minQuantity);
    CompareSign(quantity, rules.maxQuantity);
    CompareSign(price, rules.minPrice);
    CompareSign(price, rules.maxPrice);
    if rules.minNotional.Some? { CompareSign(notional, rules.minNotional.value); }
    if rules.maxNotional.Some? { CompareSign(notional, rules.maxNotional.value); }
    hide Pow10, CompareDecimal, IsDecimalMultiple, ParseDecimal, Parseable;
  }

  /** Only decimals of at most 80 characters are judged at all. */
  lemma JudgedExactly(quantityText: string, priceText: string, rules: Rules)
    ensures ValidateOrder(quantityText, priceText, rules) == RulesInvalid <==>
              !IsDecimal(quantityText) || |quantityText| > 80 || !IsDecimal(priceText) || |priceText| > 80
  {
    hide CompareDecimal, IsDecimalMultiple, ParseDecimal, MultiplyDecimal, IsDecimal;
  }

  /** What validateRoute accepts: a trading spot symbol with limit orders, the same names, and step and tick
      that are the venue's numbers. */
  lemma RouteChecks(route: Route, tickText: string, rules: Rules)
    requires Parseable(tickText)
    ensures var tick := ParseDecimal(tickText);
            ValidateRoute(route, tickText, rules) == RoutePass <==>
              && rules.trading && rules.spotAllowed && rules.limitAllowed
              && route.symbol == rules.symbol && route.baseAsset == rules.baseAsset && route.quoteAsset == rules.quoteAsset
              && rules.stepSize.coefficient * Pow10(route.tokenDecimals) == route.stepSizeRaw * Pow10(rules.stepSize.scale)
              && AtMost(tick, rules.tickSize) && AtMost(rules.tickSize, tick)
  {
    CompareSign(ParseDecimal(tickText), rules.tickSize);
    RawUnitsExact(rules.stepSize, route.tokenDecimals, route.stepSizeRaw);
    hide Pow10, CompareDecimal, DecimalToRawUnits, ParseDecimal, Parseable;
  }

  /** The built quantity, in units of 10^-decimals, the built price, in units of 10^-18, and their product lie
      between the venue's numbers. */
  predicate WithinRanges(quantity: nat, decimals: nat, price: nat, rules: Rules) {
    && rules.minQuantity.coefficient * Pow10(decimals) <= quantity * Pow10(rules.minQuantity.scale)
    && quantity * Pow10(rules.maxQuantity.scale) <= rules.maxQuantity.coefficient * Pow10(decimals)
    && (rules.minPrice.coefficient != 0 ==> rules.minPrice.coefficient * Pow10(18) <= price * Pow10(rules.minPrice.scale))
    && (rules.maxPrice.coefficient != 0 ==> price * Pow10(rules.maxPrice.scale) <= rules.maxPrice.coefficient * Pow10(18))
    && (rules.minNotional.Some? ==>
          rules.minNotional.value.coefficient * Pow10(decimals + 18)
          <= (quantity * price) * Pow10(rules.minNotional.value.scale))
    && (rules.maxNotional.Some? ==>
          (quantity * price) * Pow10(rules.maxNotional.value.scale)
          <= rules.maxNotional.value.coefficient * Pow10(decimals + 18))
  }

  /** An order built from a route that validateRoute accepts never fails the step or tick check: it passes
      validateOrder exactly when it lies within the venue's ranges.  The price string must fit the
      80-character limit of parseDecimal; the quantity string always does when the amount fits the
      78-digit column it is stored in. */
  lemma BuiltOrderPasses(side: Side, amount: nat, reference: nat, route: Route, tickText: string, rules: Rules)
    requires route.stepSizeRaw <= amount < Pow10(78) && reference > 0
    requires LimitPrice(side, amount, reference, route).Some?
    requires |FormatPrice(LimitPrice(side, amount, reference, route).value)| <= MAX_DECIMAL_LENGTH
    requires Parseable(tickText) && ParsePriceTick(tickText) == Parsed(route.priceTick)
    requires rules.stepSize.coefficient > 0 && rules.tickSize.coefficient > 0
    requires ValidateRoute(route, tickText, rules) == RoutePass
    ensures var price := LimitPrice(side, amount, reference, route).value;
            var quantity, q, p := Quantize(amount, route.stepSizeRaw), FormatHedgeQuantity(amount, route), FormatPrice(price);
            && quantity.Some? && q.Some? && Parseable(q.value) && Parseable(p)
            && var check := ValidateOrder(q.value, p, rules);
               && check !in {RulesInvalid, StepSizeInvalid, PriceTickInvalid}
               && (check == OrderPass <==> WithinRanges(quantity.value, route.tokenDecimals, price, rules))
  {
    hide Pow10, LimitPrice, FormatScaled, Scaled, IsDecimal, ParseDecimal, CompareDecimal, IsDecimalMultiple,
         DecimalToRawUnits, Quantize, AtScale, ValidateOrder, WithinRanges, AtMost;
    var price := LimitPrice(side, amount, reference, route).value;
    LimitPriceOptimal(side, amount, reference, route, 0);
    QuantizeGreatest(amount, route.stepSizeRaw, 0);
    var quantity := Quantize(amount, route.stepSizeRaw).value;
    FormatReadsBack(quantity, route.tokenDecimals);
    FormatReadsBack(price, 18);
    QuantityFits(quantity, route.tokenDecimals);
    var q, p := FormatScaled(quantity, route.tokenDecimals), FormatScaled(price, 18);
    QuantityIsStepMultiple(quantity, q, route, rules.stepSize);
    PriceIsTickMultiple(price, p, route.priceTick, tickText, rules.tickSize);
    OrderChecks(q, p, rules);
    ParsedDecimal(q, route.tokenDecimals);
    ParsedDecimal(p, 18);
    RangesOfBuilt(ParseDecimal(q), ParseDecimal(p), quantity, route.tokenDecimals, price, rules);
  }

  /** The ranges in the venue's numbers are the ranges in units. */
  lemma RangesOfBuilt(q: DecimalValue, p: DecimalValue, quantity: nat, decimals: nat, price: nat, rules: Rules)
    requires q.scale <= decimals && AtScale(q, decimals) == quantity
    requires p.scale <= 18 && AtScale(p, 18) == price
    ensures var notional := DecimalValue(Times(q.coefficient, p.coefficient), q.scale + p.scale);
            WithinRanges(quantity, decimals, price, rules) <==>
              && AtMost(rules.minQuantity, q) && AtMost(q, rules.maxQuantity)
              && (rules.minPrice.coefficient == 0 || AtMost(rules.minPrice, p))
              && (rules.maxPrice.coefficient == 0 || AtMost(p, rules.maxPrice))
              && (rules.minNotional.Some? ==> AtMost(rules.minNotional.value, notional))
              && (rules.maxNotional.Some? ==> AtMost(notional, rules.maxNotional.value))
  {
    var notional := MultiplyDecimal(q, p);
    ProductInUnits(q, p, decimals, 18);
    AtMostInUnits(q, decimals, rules.minQuantity);
    AtMostInUnits(q, decimals, rules.maxQuantity);
    AtMostInUnits(p, 18, rules.minPrice);
    AtMostInUnits(p, 18, rules.maxPrice);
    if rules.minNotional.Some? { AtMostInUnits(notional, decimals + 18, rules.minNotional.value); }
    if rules.maxNotional.Some? { AtMostInUnits(notional, decimals + 18, rules.maxNotional.value); }
    hide Pow10, AtScale, AtMost;
  }

  lemma QuantityFits(quantity: nat, decimals: nat)
    requires quantity < Pow10(78) && decimals <= 36
    ensures |FormatScaled(quantity, decimals)| <= MAX_DECIMAL_LENGTH
  {
    hide Pow10, Text, TrimZeros;
    TextLength(quantity, 78);
  }
}
