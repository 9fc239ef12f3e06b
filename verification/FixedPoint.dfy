/** Exact fixed-point parsing: src/core/fixed_point.cpp. */
module FixedPoint {
  import opened Base
  import opened Decimal

  datatype Parsed =
    | Ok(raw: int64)
    | OutOfRange       // unsupported scale
    | InvalidArgument  // malformed text or too many fractional digits
    | Overflow         // the exact result exceeds INT64_MAX

  /** The exact result: the decimal value times 10^scale. */
  function Scaled(s: string, scale: nat): (v: nat)
    requires PlainDecimal(s) && |FractionPart(s)| <= scale
  {
    Unscaled(s) * Pow10(scale - |FractionPart(s)|)
  }

  /** What the documentation promises of parsing: grammar, precision, then range. */
  function Parse(s: string, scale: int): (r: Parsed)
  {
    if scale < 0 || scale > 18 then OutOfRange
    else if !PlainDecimal(s) || |FractionPart(s)| > scale then InvalidArgument
    else if Scaled(s, scale) > INT64_MAX then Overflow
    else Ok(Scaled(s, scale) as int64)
  }

  /** The digits of s with the point removed. */
  function WithoutPoint(s: string): (d: string)
    requires PlainDecimal(s)
    ensures AllDigits(d)
  {
    IntegerPart(s) + FractionPart(s)
  }

  /** The validation pass: rejects exactly the texts outside the grammar, and counts fractional digits. */
  method Validate(decimal: string) returns (ok: bool, fractionalDigits: nat)
    requires decimal != ""
    ensures ok <==> PlainDecimal(decimal)
    ensures ok ==> fractionalDigits == |FractionPart(decimal)|
  {
    var pointSeen := false;
    fractionalDigits := 0;
    var i := 0;
    while i < |decimal|
      invariant 0 <= i <= |decimal|
      invariant pointSeen <==> PointOf(decimal) < i
      invariant forall k :: 0 <= k < i ==> IsDigit(decimal[k]) || k == PointOf(decimal)
      invariant pointSeen ==> 0 < PointOf(decimal) < |decimal| - 1
      invariant fractionalDigits == if pointSeen then i - PointOf(decimal) - 1 else 0
    {
      var ch := decimal[i];
      if ch == '.' {
        if pointSeen || i == 0 || i == |decimal| - 1 {
          if !pointSeen {
            assert PointOf(decimal) == i;
          } else {
            assert FractionPart(decimal)[i - PointOf(decimal) - 1] == ch;
          }
          return false, 0;
        }
        pointSeen := true;
      } else if ch < '0' || ch > '9' {
        if pointSeen {
          assert FractionPart(decimal)[i - PointOf(decimal) - 1] == ch;
        } else if i < PointOf(decimal) {
          assert IntegerPart(decimal)[i] == ch;
        }
        return false, 0;
      } else if pointSeen {
        fractionalDigits := fractionalDigits + 1;
      }
      i := i + 1;
    }
    ok := true;
  }

  /** One digit is appended exactly when the wider number still fits, with no intermediate overflow. */
  method Append(raw: int64, digit: int64) returns (ok: bool, next: int64)
    requires raw >= 0 && 0 <= digit <= 9
    ensures ok <==> raw as int * 10 + digit as int <= INT64_MAX
    ensures ok ==> next as int == raw as int * 10 + digit as int
  {
    next := raw;
    ok := raw <= (0x7FFF_FFFF_FFFF_FFFF - digit) / 10;
    if ok {
      next := raw * 10 + digit;
    }
  }

  lemma {:induction false} PrefixNotAbove(s: string, i: nat)
    requires AllDigits(s) && i <= |s|
    ensures AllDigits(s[..i]) && Value(s[..i]) <= Value(s)
    decreases |s| - i
  {
    if i < |s| {
      assert s[..i + 1][..i] == s[..i];
      PrefixNotAbove(s, i + 1);
    } else {
      assert s[..i] == s;
    }
  }

  /** The accumulation pass over a validated text. */
  method Accumulate(decimal: string, digits: string) returns (ok: bool, raw: int64)
    requires PlainDecimal(decimal) && AllDigits(digits) && digits == WithoutPoint(decimal)
    ensures ok <==> Value(digits) <= INT64_MAX
    ensures ok ==> raw as int == Value(digits)
  {
    ok, raw := true, 0;
    ghost var n := 0;
    var i := 0;
    while i < |decimal|
      invariant 0 <= i <= |decimal|
      invariant n == (if i <= PointOf(decimal) then i else i - 1) && n <= |digits|
      invariant raw >= 0 && raw as int == Value(digits[..n])
    {
      var ch := decimal[i];
      if ch != '.' {
        assert i != PointOf(decimal) && digits[n] == ch;
        assert digits[..n + 1][..n] == digits[..n];
        ok, raw := Append(raw, ch as int64 - '0' as int64);
        n := n + 1;
        if !ok {
          PrefixNotAbove(digits, n);
          return;
        }
      } else {
        assert forall k :: 0 <= k < |FractionPart(decimal)| ==>
          FractionPart(decimal)[k] == decimal[PointOf(decimal) + 1 + k];
      }
      i := i + 1;
    }
    assert digits[..n] == digits;
  }

  /** Decimal text to fixed point: the two passes and the zero padding of the source. */
  method ParseDecimal(decimal: string, scale: int) returns (r: Parsed)
    ensures r == Parse(decimal, scale)
  {
    if scale < 0 || scale > 18 {
      return OutOfRange;
    }
    if decimal == "" {
      return InvalidArgument;
    }
    var wellFormed, fractionalDigits := Validate(decimal);
    if !wellFormed || fractionalDigits > scale {
      return InvalidArgument;
    }
    ghost var v := Unscaled(decimal);
    var ok, raw := Accumulate(decimal, WithoutPoint(decimal));
    ghost var pad := scale - fractionalDigits;
    if !ok {
      GrowsBy(v, Pow10(pad));
      return Overflow;
    }
    var i := fractionalDigits;
    while i < scale
      invariant fractionalDigits <= i <= scale
      invariant raw >= 0 && raw as int == v * Pow10(i - fractionalDigits)
    {
      PadMore(v, i - fractionalDigits, pad);
      ok, raw := Append(raw, 0);
      if !ok {
        return Overflow;
      }
      i := i + 1;
    }
    r := Ok(raw);
  }

  /** One more padding zero multiplies by ten, and never passes the fully padded value. */
  lemma PadMore(v: nat, k: nat, pad: nat)
    requires k < pad
    ensures v * Pow10(k + 1) == v * Pow10(k) * 10
    ensures v * Pow10(k + 1) <= v * Pow10(pad)
  {
    PadOne(v, k);
    Pow10Add(k + 1, pad - k - 1);
    PadAll(v, Pow10(k + 1), Pow10(pad - k - 1), Pow10(pad));
  }

  lemma PadOne(v: nat, k: nat)
    ensures v * Pow10(k + 1) == v * Pow10(k) * 10
  {
    Associate(v, Pow10(k), 10);
  }

  lemma PadAll(v: nat, p: nat, q: nat, pq: nat)
    requires q >= 1 && pq == p * q
    ensures v * p <= v * pq
  {
    Associate(v, p, q);
    GrowsBy(v * p, q);
  }

  lemma GrowsBy(a: nat, f: nat)
    requires f >= 1
    ensures a * f >= a
  {}

  /** Tick order is decimal order: comparing raw values compares the decimals themselves. */
  lemma TickOrderIsDecimalOrder(s: string, t: string, scale: int)
    requires Parse(s, scale).Ok? && Parse(t, scale).Ok?
    ensures Parse(s, scale).raw < Parse(t, scale).raw <==>
            Unscaled(s) * Pow10(|FractionPart(t)|) < Unscaled(t) * Pow10(|FractionPart(s)|)
  {
    ScaledOrder(s, t, scale);
  }

  lemma ScaledOrder(s: string, t: string, scale: nat)
    requires PlainDecimal(s) && |FractionPart(s)| <= scale
    requires PlainDecimal(t) && |FractionPart(t)| <= scale
    ensures Scaled(s, scale) < Scaled(t, scale) <==>
            Unscaled(s) * Pow10(|FractionPart(t)|) < Unscaled(t) * Pow10(|FractionPart(s)|)
  {
    var f, g := |FractionPart(s)|, |FractionPart(t)|;
    Pow10Add(scale - f, f);
    Pow10Add(scale - g, g);
    CrossMultiply(Unscaled(s), Unscaled(t), Pow10(scale - f), Pow10(f), Pow10(scale - g), Pow10(g));
  }

  lemma CrossMultiply(u: nat, v: nat, pf: nat, f: nat, pg: nat, g: nat)
    requires pf >= 1 && f >= 1 && pg >= 1 && g >= 1 && pf * f == pg * g
    ensures u * pf < v * pg <==> u * g < v * f
  {
    Regroup(u, pf, f, g);
    Regroup(v, pg, g, f);
    Cancel(u * pf, v * pg, f * g);
    Cancel(u * g, v * f, pf * f);
  }

  lemma Regroup(u: nat, p: nat, f: nat, g: nat)
    ensures (u * p) * (f * g) == (u * g) * (p * f)
    ensures f * g == g * f
  {}

  lemma Cancel(x: nat, y: nat, k: nat)
    requires k >= 1
    ensures x < y <==> x * k < y * k
  {
    if x < y {
      assert y * k - x * k == (y - x) * k;
    } else {
      assert x * k - y * k == (x - y) * k;
    }
  }

  // ----- Two-decimal price display: src/main.cpp -----

  function NatText(n: nat): (s: string)
    ensures s != "" && AllDigits(s) && Value(s) == n
  {
    if n < 10 then
      var s := [('0' as int + n) as char];
      assert s[..0] == "";
      s
    else
      var s := NatText(n / 10) + [('0' as int + n % 10) as char];
      assert s[..|s| - 1] == NatText(n / 10);
      s
  }

  /** Ticks divided by 100, a point, and the remainder padded to two digits. */
  function Display(ticks: nat): (s: string)
  {
    NatText(ticks / 100) + "." + Cents(ticks % 100)
  }

  /** A remainder set to width two and filled with '0'. */
  function Cents(n: nat): (s: string)
    requires n < 100
    ensures |s| == 2 && AllDigits(s) && Value(s) == n
  {
    ValuePadded(NatText(n), 1);
    assert Zeros(1) == "0";
    if n < 10 then "0" + NatText(n) else assert |NatText(n / 10)| == 1; NatText(n)
  }

  /** Displaying any nonnegative int64 at two decimals and parsing it back at scale 2 is the identity. */
  lemma ParseInvertsDisplay(ticks: nat)
    requires ticks <= INT64_MAX
    ensures Parse(Display(ticks), 2) == Ok(ticks as int64)
  {
    var a, cents := NatText(ticks / 100), Cents(ticks % 100);
    assert Display(ticks) == a + "." + cents;
    PointOfParts(a, cents);
    ValueConcat(a, cents);
    assert Pow10(2) == 100 by { assert Pow10(1) == 10; }
  }
}
