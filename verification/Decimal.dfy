/** Decimal digit strings, most significant digit first, and the numbers they denote. */
module Decimal {

  predicate IsDigit(c: char) { '0' <= c <= '9' }

  predicate AllDigits(s: string) { forall i :: 0 <= i < |s| ==> IsDigit(s[i]) }

  function Digit(c: char): (d: nat)
    requires IsDigit(c)
  {
    c as int - '0' as int
  }

  function Pow10(n: nat): (p: nat)
    ensures p >= 1
  {
    if n == 0 then 1 else 10 * Pow10(n - 1)
  }

  /** The number a digit string denotes; the empty string denotes zero. */
  function Value(s: string): (v: nat)
    requires AllDigits(s)
  {
    if s == "" then 0 else Value(s[..|s| - 1]) * 10 + Digit(s[|s| - 1])
  }

  function Zeros(n: nat): (s: string)
    ensures |s| == n && AllDigits(s)
  {
    seq(n, _ => '0')
  }

  lemma {:induction false} Pow10Add(a: nat, b: nat)
    ensures Pow10(a + b) == Pow10(a) * Pow10(b)
  {
    if a > 0 {
      Pow10Add(a - 1, b);
      assert Pow10(a + b) == 10 * Pow10(a - 1 + b);
    }
  }

  /** Reading the concatenation of two digit strings shifts the first by the length of the second. */
  lemma {:induction false} ValueConcat(a: string, b: string)
    requires AllDigits(a) && AllDigits(b)
    ensures AllDigits(a + b)
    ensures Value(a + b) == Value(a) * Pow10(|b|) + Value(b)
  {
    if b == "" {
      assert a + b == a;
    } else {
      var c := b[..|b| - 1];
      ValueConcat(a, c);
      assert (a + b)[..|a + b| - 1] == a + c;
      ShiftOneDigit(Value(a), Pow10(|c|), Value(c), Digit(b[|b| - 1]));
    }
  }

  lemma Associate(x: nat, y: nat, z: nat)
    ensures x * (y * z) == (x * y) * z
  {}

  lemma ShiftOneDigit(x: nat, p: nat, y: nat, d: nat)
    ensures (x * p + y) * 10 + d == x * (10 * p) + (y * 10 + d)
  {}

  lemma {:induction false} ValueZeros(n: nat)
    ensures Value(Zeros(n)) == 0
  {
    if n > 0 {
      assert Zeros(n)[..n - 1] == Zeros(n - 1);
      ValueZeros(n - 1);
    }
  }

  /** Appending n zeros multiplies by 10^n; prepending them changes nothing. */
  lemma ValuePadded(s: string, n: nat)
    requires AllDigits(s)
    ensures AllDigits(s + Zeros(n)) && Value(s + Zeros(n)) == Value(s) * Pow10(n)
    ensures AllDigits(Zeros(n) + s) && Value(Zeros(n) + s) == Value(s)
  {
    ValueZeros(n);
    ValueConcat(s, Zeros(n));
    ValueConcat(Zeros(n), s);
  }

  lemma {:induction false} ValueBelow(s: string)
    requires AllDigits(s)
    ensures Value(s) < Pow10(|s|)
  {
    if s != "" {
      ValueBelow(s[..|s| - 1]);
    }
  }

  // ----- Plain decimals: [0-9]+(\.[0-9]+)? -----

  /** Index of the first point at or after i, or the length when there is none. */
  function PointFrom(s: string, i: nat): (p: nat)
    requires i <= |s|
    ensures i <= p <= |s|
    ensures p < |s| ==> s[p] == '.'
    ensures forall k :: i <= k < p ==> s[k] != '.'
    decreases |s| - i
  {
    if i == |s| || s[i] == '.' then i else PointFrom(s, i + 1)
  }

  function PointOf(s: string): (p: nat)
    ensures p <= |s|
    ensures p < |s| ==> s[p] == '.'
    ensures forall i :: 0 <= i < p ==> s[i] != '.'
  {
    PointFrom(s, 0)
  }

  function IntegerPart(s: string): (r: string) { s[..PointOf(s)] }

  function FractionPart(s: string): (r: string)
  {
    if PointOf(s) == |s| then "" else s[PointOf(s) + 1..]
  }

  predicate PlainDecimal(s: string)
  {
    && IntegerPart(s) != "" && AllDigits(IntegerPart(s))
    && (PointOf(s) < |s| ==> FractionPart(s) != "") && AllDigits(FractionPart(s))
  }

  /** The digits with the point taken out: s denotes Unscaled(s) / 10^|FractionPart(s)|. */
  function Unscaled(s: string): (v: nat)
    requires PlainDecimal(s)
  {
    Value(IntegerPart(s) + FractionPart(s))
  }

  lemma PointOfParts(a: string, b: string)
    requires AllDigits(a)
    ensures PointOf(a + "." + b) == |a|
    ensures IntegerPart(a + "." + b) == a && FractionPart(a + "." + b) == b
  {
    var s := a + "." + b;
    assert s[|a|] == '.';
    assert forall i :: 0 <= i < |a| ==> s[i] == a[i] && IsDigit(a[i]);
  }

  lemma PointOfDigits(a: string)
    requires AllDigits(a)
    ensures PointOf(a) == |a| && IntegerPart(a) == a && FractionPart(a) == ""
  {
    assert forall i :: 0 <= i < |a| ==> IsDigit(a[i]);
  }
}
