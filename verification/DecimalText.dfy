/** Decimal strings: BigInt parsing and printing, padStart, trailing-zero trimming and split("."), as the
    hedge printers and parsers use them. */
module DecimalText {
  import opened Arithmetic

  predicate IsDigit(c: char) { '0' <= c <= '9' }

  predicate AllDigits(s: string) { forall k :: 0 <= k < |s| ==> IsDigit(s[k]) }

  function DigitValue(c: char): nat
    requires IsDigit(c)
  {
    c as int - '0' as int
  }

  function DigitChar(d: nat): (c: char)
    requires d < 10
    ensures IsDigit(c) && DigitValue(c) == d
  {
    ('0' as int + d) as char
  }

  /** BigInt(s); the empty string reads as zero, as in JavaScript. */
  function Value(s: string): nat
    requires AllDigits(s)
  {
    if s == "" then 0 else Value(s[..|s| - 1]) * 10 + DigitValue(s[|s| - 1])
  }

  /** value.toString(). */
  function Text(n: nat): string {
    if n < 10 then [DigitChar(n)] else Text(n / 10) + [DigitChar(n % 10)]
  }

  function Zeros(k: nat): (s: string)
    ensures |s| == k && AllDigits(s) && forall j :: 0 <= j < k ==> s[j] == '0'
  {
    seq(k, _ => '0')
  }

  function PadStart(s: string, width: nat): string {
    if |s| >= width then s else Zeros(width - |s|) + s
  }

  /** s.replace(/0+$/, ""). */
  function TrimZeros(s: string): (t: string)
    ensures |t| <= |s| && t == s[..|t|]
    ensures t == "" || t[|t| - 1] != '0'
    ensures s == t + Zeros(|s| - |t|)
  {
    if s != "" && s[|s| - 1] == '0' then
      var t := TrimZeros(s[..|s| - 1]);
      assert s == s[..|s| - 1] + ['0'];
      assert Zeros(|s| - |t|) == Zeros(|s| - 1 - |t|) + ['0'];
      t
    else
      assert Zeros(0) == "";
      s
  }

  /** (0|[1-9][0-9]*) */
  predicate CanonicalInteger(s: string) {
    AllDigits(s) && s != "" && (s[0] == '0' ==> s == "0")
  }

  // ---------------------------------------------------------------- positional value

  lemma {:induction false} ValueConcat(a: string, b: string)
    requires AllDigits(a) && AllDigits(b)
    ensures AllDigits(a + b)
    ensures Value(a + b) == Value(a) * Pow10(|b|) + Value(b)
  {
    if b == "" {
      assert a + b == a;
    } else {
      var b' := b[..|b| - 1];
      ValueConcat(a, b');
      assert (a + b)[..|a + b| - 1] == a + b';
      assert Value(a) * Pow10(|b|) == Value(a) * Pow10(|b'|) * 10;
    }
  }

  lemma {:induction false} ValueBound(s: string)
    requires AllDigits(s)
    ensures Value(s) < Pow10(|s|)
  {
    if s != "" { ValueBound(s[..|s| - 1]); }
  }

  lemma {:induction false} ValueZeros(k: nat)
    ensures Value(Zeros(k)) == 0
  {
    if k > 0 {
      assert Zeros(k)[..k - 1] == Zeros(k - 1);
      ValueZeros(k - 1);
    }
  }

  /** Leading zeros do not change the value. */
  lemma ValuePadded(s: string, width: nat)
    requires AllDigits(s)
    ensures AllDigits(PadStart(s, width))
    ensures |PadStart(s, width)| == if |s| >= width then |s| else width
    ensures Value(PadStart(s, width)) == Value(s)
  {
    if |s| < width {
      ValueConcat(Zeros(width - |s|), s);
      ValueZeros(width - |s|);
    }
  }

  lemma {:induction false} TextValue(n: nat)
    ensures CanonicalInteger(Text(n))
    ensures Value(Text(n)) == n
    ensures n > 0 ==> Text(n)[0] != '0'
  {
    if n >= 10 {
      TextValue(n / 10);
      assert Text(n)[..|Text(n)| - 1] == Text(n / 10);
      assert Text(n)[0] == Text(n / 10)[0];
    }
  }

  /** Digit strings of equal length and equal value are the same string. */
  lemma {:induction false} SameLengthSameValue(a: string, b: string)
    requires AllDigits(a) && AllDigits(b) && |a| == |b| && Value(a) == Value(b)
    ensures a == b
  {
    if a != "" {
      var x, y := a[..|a| - 1], b[..|b| - 1];
      assert Value(x) == Value(y) && DigitValue(a[|a| - 1]) == DigitValue(b[|b| - 1]);
      SameLengthSameValue(x, y);
      assert a == x + [a[|a| - 1]] && b == y + [b[|b| - 1]];
    }
  }

  /** A canonical integer string is the printed form of its value. */
  lemma {:induction false} TextOfValue(s: string)
    requires CanonicalInteger(s)
    ensures Text(Value(s)) == s
  {
    if |s| == 1 {
      assert s[..0] == "";
    } else {
      var t := s[..|s| - 1];
      TextOfValue(t);
      TextValue(Value(t));
      assert Text(0) == "0" && t[0] == s[0];
      assert Value(s) == Value(t) * 10 + DigitValue(s[|s| - 1]);
      assert s == t + [s[|s| - 1]];
    }
  }

  // ---------------------------------------------------------------- decimals

  /** A decimal string as its integer and fraction digits; no point when the fraction is empty. */
  function Join(integer: string, fraction: string): string {
    if fraction == "" then integer else integer + "." + fraction
  }

  function PointAt(s: string): (k: nat)
    ensures k <= |s|
    ensures forall j :: 0 <= j < k ==> s[j] != '.'
    ensures k < |s| ==> s[k] == '.'
  {
    if s == "" || s[0] == '.' then 0 else 1 + PointAt(s[1..])
  }

  function IntegerPart(s: string): string { s[..PointAt(s)] }

  function FractionPart(s: string): string { if PointAt(s) == |s| then "" else s[PointAt(s) + 1..] }

  /** ^(0|[1-9][0-9]*)(\.[0-9]+)?$ */
  predicate IsDecimal(s: string) {
    && CanonicalInteger(IntegerPart(s))
    && (PointAt(s) < |s| ==> FractionPart(s) != "" && AllDigits(FractionPart(s)))
  }

  /** split(".") undoes Join. */
  lemma SplitJoin(integer: string, fraction: string)
    requires CanonicalInteger(integer) && AllDigits(fraction)
    ensures IsDecimal(Join(integer, fraction))
    ensures IntegerPart(Join(integer, fraction)) == integer && FractionPart(Join(integer, fraction)) == fraction
  {
    var s := Join(integer, fraction);
    assert forall j :: 0 <= j < |integer| ==> s[j] == integer[j] != '.';
    assert fraction != "" ==> s[|integer|] == '.';
    assert PointAt(s) == |integer|;
    assert s[..|integer|] == integer;
    if fraction != "" { assert s[|integer| + 1..] == fraction; }
  }

  lemma JoinSplit(s: string)
    requires IsDecimal(s)
    ensures Join(IntegerPart(s), FractionPart(s)) == s
  {
  }

  /** integer * 10^scale + the first scale digits of the zero-filled fraction. */
  function Scaled(integer: string, fraction: string, scale: nat): nat
    requires AllDigits(integer) && AllDigits(fraction)
  {
    Value(integer) * Pow10(scale) + Value((fraction + Zeros(scale))[..scale])
  }

  /** Printed form of value / 10^scale: padStart(scale + 1), cut, trailing zeros dropped. */
  function FormatScaled(value: nat, scale: nat): string {
    if scale == 0 then Text(value)
    else
      var raw := PadStart(Text(value), scale + 1);
      assert |raw| >= scale + 1;
      Join(raw[..|raw| - scale], TrimZeros(raw[|raw| - scale..]))
  }

  lemma ZeroFill(fraction: string, scale: nat)
    requires AllDigits(fraction) && |fraction| <= scale
    ensures (fraction + Zeros(scale))[..scale] == fraction + Zeros(scale - |fraction|)
    ensures AllDigits(fraction + Zeros(scale - |fraction|))
  {
  }

  /** Every printed decimal is canonical, has at most scale fraction digits with no trailing zero, and
      reads back as the printed value. */
  lemma FormatReadsBack(value: nat, scale: nat)
    ensures var s := FormatScaled(value, scale);
            && IsDecimal(s)
            && |FractionPart(s)| <= scale
            && (FractionPart(s) == "" || FractionPart(s)[|FractionPart(s)| - 1] != '0')
            && Scaled(IntegerPart(s), FractionPart(s), scale) == value
  {
    hide Value, Text, TrimZeros, PadStart, Pow10;
    var text := Text(value);
    TextValue(value);
    if scale == 0 {
      assert text == Join(text, "");
      SplitJoin(text, "");
      EmptyScale(text);
    } else {
      var raw := PadStart(text, scale + 1);
      RawSplit(text, scale);
      var integer, tail := raw[..|raw| - scale], raw[|raw| - scale..];
      ValueConcat(integer, tail);
      var fraction := TrimZeros(tail);
      SplitJoin(integer, fraction);
      ZeroFill(fraction, scale);
      assert (fraction + Zeros(scale))[..scale] == tail;
    }
  }

  lemma EmptyScale(text: string)
    requires AllDigits(text)
    ensures Scaled(text, "", 0) == Value(text)
  {
    assert ("" + Zeros(0))[..0] == "";
  }

  /** The padded text is an integer part followed by exactly scale digits. */
  lemma RawSplit(text: string, scale: nat)
    requires CanonicalInteger(text) && scale > 0
    ensures var raw := PadStart(text, scale + 1);
            && |raw| > scale
            && raw == raw[..|raw| - scale] + raw[|raw| - scale..]
            && CanonicalInteger(raw[..|raw| - scale])
            && AllDigits(raw[|raw| - scale..])
            && Value(raw) == Value(text)
  {
    hide Value;
    var raw := PadStart(text, scale + 1);
    ValuePadded(text, scale + 1);
    if |text| >= scale + 1 {
      assert raw == text;
    } else {
      assert |raw[..|raw| - scale]| == 1;
    }
  }

  /** Conversely, every canonical decimal without trailing zeros and within the scale is the printed form
      of its scaled value; with FormatReadsBack this makes printing a bijection onto such strings. */
  lemma FormatOfScaled(integer: string, fraction: string, scale: nat)
    requires CanonicalInteger(integer) && AllDigits(fraction) && |fraction| <= scale
    requires fraction == "" || fraction[|fraction| - 1] != '0'
    ensures FormatScaled(Scaled(integer, fraction, scale), scale) == Join(integer, fraction)
  {
    hide Value, Text, TrimZeros, PadStart, Pow10;
    var tail := fraction + Zeros(scale - |fraction|);
    ZeroFill(fraction, scale);
    var value := Scaled(integer, fraction, scale);
    ValueConcat(integer, tail);
    if scale == 0 {
      assert tail == "" && integer + tail == integer;
      TextOfValue(integer);
    } else {
      var raw := PadStart(Text(value), scale + 1);
      RawOfValue(integer, tail);
      assert raw[..|raw| - scale] == integer && raw[|raw| - scale..] == tail;
      TrimUnique(fraction, scale - |fraction|);
    }
  }

  lemma RawOfValue(integer: string, tail: string)
    requires CanonicalInteger(integer) && AllDigits(tail) && tail != ""
    ensures PadStart(Text(Value(integer + tail)), |tail| + 1) == integer + tail
  {
    hide Value, Text, PadStart, Pow10;
    var digits := integer + tail;
    var text := Text(Value(digits));
    ValueConcat(integer, tail);
    TextValue(Value(digits));
    ValuePadded(text, |tail| + 1);
    if integer == "0" {
      ValueBound(tail);
      ValueZeros(1);
      assert integer == Zeros(1);
      TextLength(Value(digits), |tail|);
    } else {
      TextOfValue(digits);
    }
    SameLengthSameValue(PadStart(text, |tail| + 1), digits);
  }

  lemma {:induction false} TextLength(n: nat, k: nat)
    requires k > 0
    ensures n < Pow10(k) <==> |Text(n)| <= k
  {
    if n >= 10 {
      if k > 1 {
        TextLength(n / 10, k - 1);
      } else {
        assert |Text(n / 10)| > 0 by { TextValue(n / 10); }
      }
    }
  }

  lemma {:induction false} TrimUnique(t: string, k: nat)
    requires t == "" || t[|t| - 1] != '0'
    ensures TrimZeros(t + Zeros(k)) == t
  {
    if k == 0 {
      assert t + Zeros(0) == t;
    } else {
      var s := t + Zeros(k);
      assert s[..|s| - 1] == t + Zeros(k - 1);
      TrimUnique(t, k - 1);
    }
  }
}
