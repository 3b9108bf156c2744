/** The decimal printers and parsers of the hedge modules, and that they undo each other. */
module HedgeText {
  import opened Arithmetic
  import opened DecimalText
  import opened HedgeRoute

  datatype Parsed<T> = Malformed | Parsed(value: T)

  /** The scaled integer of a decimal string whose fraction fits the scale. */
  function ScaledOf(s: string, scale: nat): nat
    requires IsDecimal(s)
  {
    Scaled(IntegerPart(s), FractionPart(s), scale)
  }

  // ---------------------------------------------------------------- hedge quantity

  function FormatHedgeQuantity(amount: nat, route: Route): Option<string>
    requires amount > 0
  {
    match Quantize(amount, route.stepSizeRaw)
    case None => None
    case Some(q) => Some(FormatScaled(q, route.tokenDecimals))
  }

  /** Malformed is HEDGE_EXECUTED_QUANTITY_INVALID; a zero quantity parses to None. */
  function ParseHedgeExecutedQuantity(s: string, route: Route): Parsed<Option<nat>> {
    if !IsDecimal(s) || |FractionPart(s)| > route.tokenDecimals then Malformed
    else
      var raw := ScaledOf(s, route.tokenDecimals);
      if raw == 0 then Parsed(None)
      else if raw % route.stepSizeRaw != 0 then Malformed
      else Parsed(Some(raw))
  }

  /** Which strings are executed quantities: decimals within the token's digits whose integer of units is zero, for
      none, or a positive multiple of the step; everything else is malformed. */
  lemma ExecutedQuantityExactly(s: string, route: Route)
    ensures var result := ParseHedgeExecutedQuantity(s, route);
            var fits := IsDecimal(s) && |FractionPart(s)| <= route.tokenDecimals;
            && (result == Malformed <==> !fits || (ScaledOf(s, route.tokenDecimals) % route.stepSizeRaw != 0))
            && (result == Parsed(None) <==> fits && ScaledOf(s, route.tokenDecimals) == 0)
            && (forall n: nat :: result == Parsed(Some(n)) <==>
                  && fits && n == ScaledOf(s, route.tokenDecimals) > 0 && n % route.stepSizeRaw == 0)
            && (fits ==> ScaledOf(s, route.tokenDecimals)
                         == Times(Numerator(s), Pow10(route.tokenDecimals - |FractionPart(s)|)))
  {
    if IsDecimal(s) && |FractionPart(s)| <= route.tokenDecimals { NumeratorScaled(s, route.tokenDecimals); }
    hide IsDecimal, ScaledOf, Numerator, Pow10;
  }

  /** Reading back a printed hedge quantity gives the quantised amount, for every amount of at least one
      step and every token decimals the route allows. */
  lemma HedgeQuantityRoundTrip(amount: nat, route: Route)
    requires amount >= route.stepSizeRaw
    ensures var q := Quantize(amount, route.stepSizeRaw);
            var s := FormatHedgeQuantity(amount, route);
            && q.Some? && s.Some?
            && ParseHedgeExecutedQuantity(s.value, route) == Parsed(q)
  {
    hide FormatScaled, Scaled;
    QuantizeGreatest(amount, route.stepSizeRaw, 0);
    FormatReadsBack(Quantize(amount, route.stepSizeRaw).value, route.tokenDecimals);
  }

  // ---------------------------------------------------------------- price

  function FormatPrice(value: nat): string { FormatScaled(value, 18) }

  /** Malformed covers a bad shape, more than 18 fraction digits and zero. */
  function ParsePriceTick(s: string): Parsed<nat> {
    if !IsDecimal(s) || |FractionPart(s)| > 18 then Malformed
    else if ScaledOf(s, 18) == 0 then Malformed
    else Parsed(ScaledOf(s, 18))
  }

  /** Which strings are prices: positive decimals of at most 18 fraction digits. */
  lemma PriceExactly(s: string, v: nat)
    ensures ParsePriceTick(s) == Parsed(v) <==>
              && IsDecimal(s) && |FractionPart(s)| <= 18
              && v == Times(Numerator(s), Pow10(18 - |FractionPart(s)|)) > 0
  {
    if IsDecimal(s) && |FractionPart(s)| <= 18 { NumeratorScaled(s, 18); }
    hide IsDecimal, ScaledOf, Numerator, Pow10;
  }

  /** A printed positive price reads back as itself, and only zero is unreadable. */
  lemma PriceRoundTrip(value: nat)
    ensures ParsePriceTick(FormatPrice(value)) == if value == 0 then Malformed else Parsed(value)
  {
    hide FormatScaled, Scaled;
    FormatReadsBack(value, 18);
  }

  // ---------------------------------------------------------------- executed quote quantity

  /** At most 60 integer and 18 fraction digits. */
  predicate AcceptedQuoteQuantity(s: string) {
    IsDecimal(s) && |IntegerPart(s)| <= 60 && |FractionPart(s)| <= 18
  }

  /** A canonical quote quantity; None is a zero quantity. */
  function ParseCexQuoteQuantity(s: string): Parsed<Option<string>> {
    if !AcceptedQuoteQuantity(s) then Malformed
    else
      var fraction := TrimZeros(FractionPart(s));
      if IntegerPart(s) == "0" && fraction == "" then Parsed(None)
      else Parsed(Some(Join(IntegerPart(s), fraction)))
  }

  function CompareCexQuoteQuantities(left: string, right: string): int
    requires IsDecimal(left) && IsDecimal(right)
  {
    var l, r := ScaledOf(left, 18), ScaledOf(right, 18);
    if l < r then -1 else if l > r then 1 else 0
  }

  /** Which strings are quote quantities: decimals of at most 60 integer and 18 fraction digits; so their integer
      of 10^-18 units is below 10^78. */
  lemma QuoteQuantityExactly(s: string)
    ensures ParseCexQuoteQuantity(s).Malformed?
            <==> !IsDecimal(s) || |IntegerPart(s)| > 60 || |FractionPart(s)| > 18
    ensures ParseCexQuoteQuantity(s).Parsed? ==>
              IsDecimal(s) && |FractionPart(s)| <= 18
              && ScaledOf(s, 18) == Times(Numerator(s), Pow10(18 - |FractionPart(s)|)) < Pow10(78)
  {
    hide Pow10, Numerator, ScaledOf, TrimZeros, Join;
    if AcceptedQuoteQuantity(s) {
      NumeratorScaled(s, 18);
      ScaledBelow(s);
    }
  }

  lemma ScaledBelow(s: string)
    requires AcceptedQuoteQuantity(s)
    ensures ScaledOf(s, 18) < Pow10(78)
  {
    var integer, fraction := IntegerPart(s), FractionPart(s);
    ZeroFill(fraction, 18);
    hide Value, Pow10, IsDecimal, IntegerPart, FractionPart, Zeros;
    var filled := (fraction + Zeros(18))[..18];
    ValueBound(integer);
    ValueBound(filled);
    PowMonotone(|integer|, 60);
    PowAdd(60, 18);
    MulGap(Value(integer), Pow10(60), Pow10(18));
  }

  lemma TrimKeepsFill(fraction: string, scale: nat)
    requires AllDigits(fraction) && |fraction| <= scale
    ensures AllDigits(TrimZeros(fraction))
    ensures (TrimZeros(fraction) + Zeros(scale))[..scale] == (fraction + Zeros(scale))[..scale]
  {
    hide TrimZeros, Zeros, AllDigits;
    var t := TrimZeros(fraction);
    PrefixDigits(fraction, |t|);
    var n, m := |fraction| - |t|, scale - |fraction|;
    ZeroFill(t, scale);
    ZeroFill(fraction, scale);
    ZerosJoin(n, m);
    JoinThree(fraction, t, Zeros(n), Zeros(m));
  }

  lemma JoinThree(s: string, a: string, b: string, c: string)
    requires s == a + b
    ensures s + c == a + (b + c)
  {
  }

  lemma PrefixDigits(s: string, k: nat)
    requires AllDigits(s) && k <= |s|
    ensures AllDigits(s[..k])
  {
  }

  lemma ZerosJoin(n: nat, m: nat)
    ensures Zeros(n) + Zeros(m) == Zeros(n + m)
  {
  }

  lemma TrimKeepsScaled(integer: string, fraction: string, scale: nat)
    requires AllDigits(integer) && AllDigits(fraction) && |fraction| <= scale
    ensures AllDigits(TrimZeros(fraction))
    ensures Scaled(integer, TrimZeros(fraction), scale) == Scaled(integer, fraction, scale)
  {
    hide Value, Pow10, TrimZeros;
    TrimKeepsFill(fraction, scale);
  }

  /** Normalising is printing the value: the result depends on the value alone, and zero is None. */
  lemma QuoteQuantityNormalForm(s: string)
    requires AcceptedQuoteQuantity(s)
    ensures var v := ScaledOf(s, 18);
            ParseCexQuoteQuantity(s) == Parsed(if v == 0 then None else Some(FormatScaled(v, 18)))
  {
    hide FormatScaled, TrimZeros, Scaled;
    var integer, fraction := IntegerPart(s), FractionPart(s);
    var t := TrimZeros(fraction);
    TrimKeepsScaled(integer, fraction, 18);
    FormatOfScaled(integer, t, 18);
    SplitJoin(integer, t);
    SplitJoin("0", "");
    ZeroPrinted();
    ZeroScaled();
  }

  lemma ZeroScaled()
    ensures Scaled("0", "", 18) == 0
  {
    assert ("" + Zeros(18))[..18] == Zeros(18);
    ValueZeros(18);
    ValueZeros(1);
    assert "0" == Zeros(1);
  }

  lemma ZeroPrinted()
    ensures FormatScaled(0, 18) == "0"
  {
    hide FormatScaled, Scaled;
    ZeroScaled();
    FormatOfScaled("0", "", 18);
  }

  lemma QuoteQuantityReads(s: string)
    requires AcceptedQuoteQuantity(s)
    ensures ParseCexQuoteQuantity(s).Parsed?
    ensures match ParseCexQuoteQuantity(s).value
            case None => ScaledOf(s, 18) == 0
            case Some(t) => IsDecimal(t) && ScaledOf(t, 18) == ScaledOf(s, 18) > 0
  {
    hide FormatScaled, Scaled, ParseCexQuoteQuantity, IsDecimal;
    QuoteQuantityNormalForm(s);
    FormatReadsBack(ScaledOf(s, 18), 18);
  }

  /** Accepted quantities normalise to the same string exactly when they are equal in value, and
      comparing the normalised quantities is comparing the quantities received. */
  lemma QuoteQuantitiesComparable(a: string, b: string)
    requires AcceptedQuoteQuantity(a) && AcceptedQuoteQuantity(b)
    ensures CompareCexQuoteQuantities(a, b) < 0 <==> ScaledOf(a, 18) < ScaledOf(b, 18)
    ensures CompareCexQuoteQuantities(a, b) > 0 <==> ScaledOf(a, 18) > ScaledOf(b, 18)
    ensures ParseCexQuoteQuantity(a) == ParseCexQuoteQuantity(b) <==> ScaledOf(a, 18) == ScaledOf(b, 18)
    ensures ParseCexQuoteQuantity(a).Parsed? && ParseCexQuoteQuantity(b).Parsed?
    ensures var x, y := ParseCexQuoteQuantity(a).value, ParseCexQuoteQuantity(b).value;
            x.Some? && y.Some? ==>
              && IsDecimal(x.value) && IsDecimal(y.value)
              && CompareCexQuoteQuantities(x.value, y.value) == CompareCexQuoteQuantities(a, b)
  {
    hide FormatScaled, ScaledOf, ParseCexQuoteQuantity, IsDecimal;
    QuoteQuantityNormalForm(a);
    QuoteQuantityNormalForm(b);
    QuoteQuantityReads(a);
    QuoteQuantityReads(b);
  }

  // ---------------------------------------------------------------- signed net PnL

  /** formatScaled of hedge-net-pnl.ts. */
  function FormatSigned(value: int): string {
    if value < 0 then "-" + FormatScaled(-value, 18) else FormatScaled(value, 18)
  }

  function Unsigned(s: string): string { if s != "" && s[0] == '-' then s[1..] else s }

  /** The SDK's isCanonicalSignedDecimal. */
  predicate IsCanonicalSignedDecimal(s: string) {
    var u := Unsigned(s);
    && |s| <= 98
    && IsDecimal(u)
    && |FractionPart(u)| <= 18
    && (FractionPart(u) == "" || FractionPart(u)[|FractionPart(u)| - 1] != '0')
    && s != "-0"
  }

  /** The SDK's signedDecimalToScale18. */
  function SignedDecimalToScale18(s: string): int
    requires IsDecimal(Unsigned(s))
  {
    var scaled: int := ScaledOf(Unsigned(s), 18);
    if s != "" && s[0] == '-' then -scaled else scaled
  }

  /** The SDK reads back every net PnL the backend prints, and accepts the printed form whenever its
      length bound allows. */
  lemma SignedRoundTrip(value: int)
    ensures var s := FormatSigned(value);
            && IsDecimal(Unsigned(s))
            && (value < 0 <==> s[0] == '-')
            && SignedDecimalToScale18(s) == value
            && (IsCanonicalSignedDecimal(s) <==> |s| <= 98)
  {
    hide FormatScaled, Scaled;
    var u := FormatScaled(if value < 0 then -value else value, 18);
    FormatReadsBack(if value < 0 then -value else value, 18);
    assert u[0] != '-';
    if value < 0 {
      assert FormatSigned(value)[1..] == u;
      if u == "0" { ZeroPrinted(); FormatReadsBack(0, 18); }
    }
  }

  /** Conversely the backend prints exactly what the SDK accepts, so the two are inverse bijections. */
  lemma SignedCanonical(s: string)
    requires IsCanonicalSignedDecimal(s)
    ensures FormatSigned(SignedDecimalToScale18(s)) == s
  {
    hide FormatScaled, Scaled;
    var u := Unsigned(s);
    FormatOfScaled(IntegerPart(u), FractionPart(u), 18);
    JoinSplit(u);
    if s[0] == '-' {
      assert s == "-" + u;
      if ScaledOf(u, 18) == 0 { ZeroPrinted(); }
    }
  }

  // ---------------------------------------------------------------- commission parsing

  /** parseDecimalFraction: numerator over 10^(number of fraction digits). */
  function Numerator(s: string): nat
    requires IsDecimal(s)
  {
    Times(Value(IntegerPart(s)), Pow10(|FractionPart(s)|)) + Value(FractionPart(s))
  }

  /** parseDecimalScaledCeil(value, 18). */
  function ScaledCeil(s: string): nat
    requires IsDecimal(s)
  {
    var digits := |FractionPart(s)|;
    if digits <= 18 then Times(Numerator(s), Pow10(18 - digits)) else DivCeil(Numerator(s), Pow10(digits - 18))
  }

  lemma NumeratorScaled(s: string, scale: nat)
    requires IsDecimal(s) && |FractionPart(s)| <= scale
    ensures ScaledOf(s, scale) == Times(Numerator(s), Pow10(scale - |FractionPart(s)|))
  {
    hide Value, Pow10;
    var f, i := FractionPart(s), Value(IntegerPart(s));
    var k := scale - |f|;
    ZeroFill(f, scale);
    ValueConcat(f, Zeros(k));
    ValueZeros(k);
    PowAdd(|f|, k);
    Distribute(i, Pow10(|f|), Pow10(k), Value(f));
  }

  lemma Distribute(i: nat, a: nat, b: nat, v: nat)
    ensures i * (a * b) + v * b == (i * a + v) * b
  {
  }

  /** Charging a quote commission from its string agrees with charging it from the stored 10^-36
      integer. */
  lemma QuoteChargeFromText(s: string)
    requires IsDecimal(s) && |FractionPart(s)| <= 36
    ensures ScaledCeil(s) == DivCeil(ScaledOf(s, 36), Pow10(18))
  {
    hide Pow10, Times, DivCeil, Numerator, ScaledOf, IsDecimal;
    var digits := |FractionPart(s)|;
    var n := Numerator(s);
    NumeratorScaled(s, 36);
    if digits <= 18 {
      PowAdd(18 - digits, 18);
      CutExact(n, Pow10(18 - digits), Pow10(18));
    } else {
      PowAdd(digits - 18, 36 - digits);
      CutScaled(n, Pow10(digits - 18), Pow10(36 - digits));
    }
  }

  lemma CutExact(n: nat, a: nat, b: nat)
    requires a > 0 && b > 0
    ensures DivCeil(Times(n, a * b), b) == Times(n, a)
  {
    CeilScale(n * a, 1, b);
    assert n * (a * b) == n * a * b;
  }

  lemma CutScaled(n: nat, d: nat, k: nat)
    requires d > 0 && k > 0
    ensures d * k > 0 && DivCeil(Times(n, k), d * k) == DivCeil(n, d)
  {
    CeilScale(n, d, k);
  }

  /** Valuing a base commission from the two decimal strings agrees with valuing it from the stored
      10^-36 integers: the quotient only sees their ratio. */
  lemma BaseChargeFromText(commission: string, quantity: string, quote: nat)
    requires IsDecimal(commission) && |FractionPart(commission)| <= 36
    requires IsDecimal(quantity) && |FractionPart(quantity)| <= 36 && Numerator(quantity) > 0
    ensures var cd, qd := Pow10(|FractionPart(commission)|), Pow10(|FractionPart(quantity)|);
            && Times(cd, Numerator(quantity)) > 0
            && ScaledOf(quantity, 36) > 0
            && DivCeil(Times(Times(quote, Numerator(commission)), qd), Times(cd, Numerator(quantity)))
               == DivCeil(Times(quote, ScaledOf(commission, 36)), ScaledOf(quantity, 36))
  {
    hide Pow10, Times, Numerator, ScaledOf, DivCeil, IsDecimal;
    var c, q := |FractionPart(commission)|, |FractionPart(quantity)|;
    NumeratorScaled(commission, 36);
    NumeratorScaled(quantity, 36);
    PowAdd(36 - c, c);
    PowAdd(36 - q, q);
    RatioOfScales(quote, Numerator(commission), Numerator(quantity), Pow10(c), Pow10(36 - c), Pow10(q), Pow10(36 - q));
  }

  lemma RatioOfScales(quote: nat, cn: nat, qn: nat, cd: nat, ck: nat, qd: nat, qk: nat)
    requires qn > 0 && cd > 0 && ck > 0 && qd > 0 && qk > 0
    requires ck * cd == qk * qd
    ensures Times(cd, qn) > 0 && Times(qn, qk) > 0
    ensures DivCeil(Times(Times(quote, cn), qd), Times(cd, qn)) == DivCeil(Times(quote, Times(cn, ck)), Times(qn, qk))
  {
    Positive(cd, qn);
    Positive(qn, qk);
    var n, d := quote * cn * qd, cd * qn;
    CeilScale(n, d, qk);
    CeilScale(quote * (cn * ck), qn * qk, cd);
    SameProducts(quote, cn, qn, cd, ck, qd, qk);
  }

  lemma Positive(a: nat, b: nat)
    requires a > 0 && b > 0
    ensures a * b > 0
  {
  }

  lemma SameProducts(quote: int, cn: int, qn: int, cd: int, ck: int, qd: int, qk: int)
    requires ck * cd == qk * qd
    ensures (quote * cn * qd) * qk == (quote * (cn * ck)) * cd
    ensures (cd * qn) * qk == (qn * qk) * cd
  {
    assert (quote * cn * qd) * qk == (quote * cn) * (qk * qd);
    assert (quote * (cn * ck)) * cd == (quote * cn) * (ck * cd);
  }
}
