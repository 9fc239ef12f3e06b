/** Kraken numeric tokens: decimal_token in src/adapters/kraken/kraken_l2_parser.cpp and
    checksum_digits in src/adapters/kraken/kraken_checksum.cpp. */
module KrakenNumber {
  import opened Base
  import opened Decimal
  import FixedPoint

  // ----- Grammar: (0|[1-9][0-9]*)(\.[0-9]+)?([eE][+-]?[0-9]+)? -----

  function MarkFrom(s: string, i: nat): (x: nat)
    requires i <= |s|
    ensures i <= x <= |s|
    ensures x < |s| ==> s[x] == 'e' || s[x] == 'E'
    ensures forall k :: i <= k < x ==> s[k] != 'e' && s[k] != 'E'
    decreases |s| - i
  {
    if i == |s| || s[i] == 'e' || s[i] == 'E' then i else MarkFrom(s, i + 1)
  }

  /** Index of the first exponent letter, or the length when there is none. */
  function ExponentMark(s: string): (x: nat)
    ensures x <= |s|
  {
    MarkFrom(s, 0)
  }

  predicate Mantissa(m: string)
  {
    PlainDecimal(m) && (IntegerPart(m) == "0" || IntegerPart(m)[0] != '0')
  }

  function ExponentDigits(e: string): (d: string)
  {
    if e != "" && (e[0] == '+' || e[0] == '-') then e[1..] else e
  }

  predicate ExponentText(e: string)
  {
    ExponentDigits(e) != "" && AllDigits(ExponentDigits(e))
  }

  function SignedValue(e: string): (v: int)
    requires ExponentText(e)
  {
    if e[0] == '-' then 0 - Value(ExponentDigits(e)) else Value(ExponentDigits(e))
  }

  predicate Token(s: string)
  {
    && Mantissa(s[..ExponentMark(s)])
    && (ExponentMark(s) < |s| ==> ExponentText(s[ExponentMark(s) + 1..]))
  }

  function MantissaOf(s: string): (m: string) { s[..ExponentMark(s)] }

  /** The exponent a token carries; zero when it has none. */
  function Exponent(s: string): (e: int)
    requires Token(s)
  {
    if ExponentMark(s) == |s| then 0 else SignedValue(s[ExponentMark(s) + 1..])
  }

  /** The tokens that are accepted: an exponent outside [-100, 100] is refused. */
  predicate Accepted(s: string)
  {
    Token(s) && -100 <= Exponent(s) <= 100
  }

  function Positive(e: int): (n: nat) { if e > 0 then e else 0 }

  /** token and plain denote the same decimal: mantissa * 10^exponent equals plain, with every negative
      power of ten moved to the other side. */
  predicate SameDecimal(token: string, plain: string)
    requires Token(token) && PlainDecimal(plain)
  {
    var m := MantissaOf(token);
    Balanced(Unscaled(m), |FractionPart(m)|, Exponent(token), Unscaled(plain), |FractionPart(plain)|)
  }

  /** u * 10^(e - f) equals v * 10^(-g). */
  predicate Balanced(u: nat, f: nat, e: int, v: nat, g: nat)
  {
    u * Pow10(g + Positive(e)) == v * Pow10(f + Positive(-e))
  }

  /** Digits with the point moved to the given position, written without an exponent. */
  function Placed(digits: string, position: int): (s: string)
  {
    if position <= 0 then "0." + Zeros(-position) + digits
    else if position >= |digits| then digits + Zeros(position - |digits|)
    else digits[..position] + "." + digits[position..]
  }

  /** The exponent-free text of a token, when it is accepted. */
  function Expanded(token: string): (r: Option<string>)
  {
    if !Accepted(token) then None
    else if ExponentMark(token) == |token| then Some(token)
    else
      var m := MantissaOf(token);
      Some(Placed(IntegerPart(m) + FractionPart(m), |IntegerPart(m)| + Exponent(token)))
  }

  lemma PointTakenOut(s: string)
    ensures IntegerPart(s) + FractionPart(s) ==
            if PointOf(s) < |s| then s[..PointOf(s)] + s[PointOf(s) + 1..] else s
  {}

  /** The source edits one string: cut the exponent off, take the point out, put it back in place. */
  method DecimalToken(token: string) returns (r: Option<string>)
    ensures r == Expanded(token)
  {
    if !Token(token) {
      return None;
    }
    var s := token;
    var e := ExponentMark(s);
    if e == |s| {
      return Some(s);
    }
    var exponent := SignedValue(s[e + 1..]);
    if exponent < -100 || exponent > 100 {
      return None;
    }
    s := s[..e];
    var dot := PointOf(s);
    var position := dot + exponent;
    PointTakenOut(s);
    if dot < |s| {
      s := s[..dot] + s[dot + 1..];
    }
    s := Place(s, position);
    return Some(s);
  }

  method Place(digits: string, position: int) returns (s: string)
    ensures s == Placed(digits, position)
  {
    s := digits;
    if position <= 0 {
      s := "0." + Zeros(-position) + s;
    } else if position >= |s| {
      s := s + Zeros(position - |s|);
    } else {
      s := s[..position] + "." + s[position..];
    }
  }

  /** Placing the point keeps the digits' value and leaves |digits| - position fractional digits. */
  lemma PlacedDenotes(digits: string, position: int)
    requires digits != "" && AllDigits(digits)
    ensures Denotes(Placed(digits, position), digits, position)
  {
    if position <= 0 {
      PlacedBefore(digits, -position);
    } else if position >= |digits| {
      PlacedAfter(digits, position - |digits|);
    } else {
      PlacedWithin(digits, position);
    }
  }

  /** p is a plain decimal with the value of the digits, the point after the first position ones. */
  predicate Denotes(p: string, digits: string, position: int)
    requires AllDigits(digits)
  {
    && PlainDecimal(p)
    && |FractionPart(p)| == Positive(|digits| - position)
    && Unscaled(p) == Value(digits) * Pow10(Positive(position - |digits|))
  }

  lemma PlacedWithin(digits: string, n: nat)
    requires 0 < n < |digits| && AllDigits(digits)
    ensures Denotes(digits[..n] + "." + digits[n..], digits, n)
  {
    PointOfParts(digits[..n], digits[n..]);
    assert digits[..n] + digits[n..] == digits;
  }

  lemma PlacedBefore(digits: string, n: nat)
    requires digits != "" && AllDigits(digits)
    ensures Denotes("0." + Zeros(n) + digits, digits, -(n as int))
  {
    var f := Zeros(n) + digits;
    assert "0." + Zeros(n) + digits == "0" + "." + f;
    PointOfParts("0", f);
    LeadingZeros(digits, n);
    DenotesParts("0" + "." + f, "0", f, digits, -(n as int));
  }

  lemma LeadingZeros(digits: string, n: nat)
    requires AllDigits(digits)
    ensures AllDigits("0" + (Zeros(n) + digits)) && Value("0" + (Zeros(n) + digits)) == Value(digits)
  {
    assert "0" + (Zeros(n) + digits) == Zeros(1 + n) + digits;
    ValuePadded(digits, 1 + n);
  }

  /** A text of two digit parts with the value of the digits, and no zeros to append. */
  lemma DenotesParts(p: string, a: string, f: string, digits: string, position: int)
    requires AllDigits(digits) && |digits| >= position && a != "" && f != "" && AllDigits(a) && AllDigits(f)
    requires IntegerPart(p) == a && FractionPart(p) == f && |f| == |digits| - position && AllDigits(a + f)
    requires Value(a + f) == Value(digits)
    ensures Denotes(p, digits, position)
  {
    assert Pow10(0) == 1;
  }

  lemma PlacedAfter(digits: string, n: nat)
    requires digits != "" && AllDigits(digits)
    ensures Denotes(digits + Zeros(n), digits, |digits| + n)
  {
    var p := digits + Zeros(n);
    PointOfDigits(p);
    assert p + "" == p;
    ValuePadded(digits, n);
  }

  /** Expansion never changes the decimal a token denotes, and always yields the parser's grammar. */
  lemma ExpansionPreservesDecimal(token: string)
    requires Accepted(token)
    ensures Expanded(token).Some?
    ensures PlainDecimal(Expanded(token).value)
    ensures SameDecimal(token, Expanded(token).value)
  {
    var m := MantissaOf(token);
    if ExponentMark(token) == |token| {
      assert m == token;
      SelfBalanced(Unscaled(m), |FractionPart(m)|);
    } else {
      var digits, n := IntegerPart(m) + FractionPart(m), |IntegerPart(m)| + Exponent(token);
      PlacedDenotes(digits, n);
      DenotedBalances(m, digits, n, Exponent(token), Expanded(token).value);
    }
  }

  lemma SelfBalanced(u: nat, f: nat)
    ensures Balanced(u, f, 0, u, f)
  {}

  lemma DenotedBalances(m: string, digits: string, n: int, e: int, p: string)
    requires PlainDecimal(m) && digits == IntegerPart(m) + FractionPart(m) && AllDigits(digits)
    requires n == |IntegerPart(m)| + e && Denotes(p, digits, n)
    ensures Balanced(Unscaled(m), |FractionPart(m)|, e, Unscaled(p), |FractionPart(p)|)
  {
    PlacedBalances(Unscaled(m), |FractionPart(m)|, e, Unscaled(p), |FractionPart(p)|);
  }

  lemma PlacedBalances(v: nat, f: nat, e: int, w: nat, g: nat)
    requires g == Positive(f - e) && w == v * Pow10(Positive(e - f))
    ensures Balanced(v, f, e, w, g)
  {
    PowersBalance(v, f, e);
  }

  lemma PowersBalance(v: nat, f: nat, e: int)
    ensures Balanced(v, f, e, v * Pow10(Positive(e - f)), Positive(f - e))
  {
    if e >= f {
      Pow10Add(e - f, f);
      Associate(v, Pow10(e - f), Pow10(f));
    } else {
      assert Pow10(0) == 1;
      Associate(v, 1, Pow10(f + Positive(-e)));
    }
  }

  // ----- Checksum digits -----

  function WithoutPoints(s: string): (r: string)
  {
    if s == "" then "" else if s[0] == '.' then WithoutPoints(s[1..]) else [s[0]] + WithoutPoints(s[1..])
  }

  function WithoutLeadingZeros(s: string): (r: string)
  {
    if s == "" || s[0] != '0' then s else WithoutLeadingZeros(s[1..])
  }

  /** What checksum_digits returns: the expanded text without its point and leading zeros. */
  function ChecksumDigits(token: string): (r: Option<string>)
  {
    match Expanded(token)
    case None => None
    case Some(s) => Some(WithoutLeadingZeros(WithoutPoints(s)))
  }

  /** The source's erase-remove. */
  method ErasePoints(text: string) returns (s: string)
    ensures s == WithoutPoints(text)
  {
    s := "";
    assert text[0..] == text;
    for i := 0 to |text|
      invariant s + WithoutPoints(text[i..]) == WithoutPoints(text)
    {
      assert text[i..][1..] == text[i + 1..];
      if text[i] != '.' {
        s := s + [text[i]];
      }
    }
  }

  /** The source's find_first_not_of, written out as a scan. */
  method FirstNonzero(s: string) returns (first: nat)
    ensures first <= |s| && s[first..] == WithoutLeadingZeros(s)
  {
    first := 0;
    assert s[0..] == s;
    while first < |s| && s[first] == '0'
      invariant 0 <= first <= |s|
      invariant WithoutLeadingZeros(s[first..]) == WithoutLeadingZeros(s)
    {
      assert s[first..][1..] == s[first + 1..];
      first := first + 1;
    }
  }

  method ComputeChecksumDigits(token: string) returns (r: Option<string>)
    ensures r == ChecksumDigits(token)
  {
    var expanded := DecimalToken(token);
    if expanded.None? {
      return None;
    }
    var s := ErasePoints(expanded.value);
    var first := FirstNonzero(s);
    r := Some(s[first..]);
  }

  lemma PointRemoved(s: string)
    requires PlainDecimal(s)
    ensures WithoutPoints(s) == IntegerPart(s) + FractionPart(s)
  {
    if PointOf(s) < |s| {
      assert s == IntegerPart(s) + ("." + FractionPart(s));
      PointBetween(IntegerPart(s), FractionPart(s));
    } else {
      assert s == IntegerPart(s);
      DigitsKept(s);
    }
  }

  lemma PointBetween(a: string, f: string)
    requires AllDigits(a) && AllDigits(f)
    ensures WithoutPoints(a + ("." + f)) == a + f
  {
    RemovalDistributes(a, "." + f);
    DigitsKept(a);
    DigitsKept(f);
    assert ("." + f)[1..] == f;
  }

  lemma {:induction false} DigitsKept(s: string)
    requires AllDigits(s)
    ensures WithoutPoints(s) == s
  {
    if s != "" {
      assert IsDigit(s[0]);
      DigitsKept(s[1..]);
    }
  }

  lemma {:induction false} RemovalDistributes(a: string, b: string)
    ensures WithoutPoints(a + b) == WithoutPoints(a) + WithoutPoints(b)
  {
    if a == "" {
      assert a + b == b;
    } else {
      assert (a + b)[1..] == a[1..] + b;
      RemovalDistributes(a[1..], b);
    }
  }

  lemma {:induction false} LeadingZerosDropped(s: string)
    requires AllDigits(s)
    ensures var r := WithoutLeadingZeros(s);
            AllDigits(r) && (r == "" || r[0] != '0') && Value(r) == Value(s)
  {
    if s != "" && s[0] == '0' {
      LeadingZerosDropped(s[1..]);
      assert s == Zeros(1) + s[1..];
      ValuePadded(s[1..], 1);
    }
  }

  /** The digits have no leading zero, and denote the number D with D * 10^(scale - fractional digits)
      equal to the parsed raw value at every scale at which the text parses. */
  lemma ChecksumDigitsDenoteRaw(token: string, scale: int)
    requires Accepted(token)
    ensures ChecksumDigits(token).Some?
    ensures var plain, digits := Expanded(token).value, ChecksumDigits(token).value;
            && AllDigits(digits) && (digits == "" || digits[0] != '0')
            && PlainDecimal(plain) && Value(digits) == Unscaled(plain)
            && (FixedPoint.Parse(plain, scale).Ok? ==>
                  && |FractionPart(plain)| <= scale
                  && FixedPoint.Parse(plain, scale).raw as int ==
                     Value(digits) * Pow10(scale - |FractionPart(plain)|))
  {
    ExpansionPreservesDecimal(token);
    var plain := Expanded(token).value;
    PointRemoved(plain);
    LeadingZerosDropped(IntegerPart(plain) + FractionPart(plain));
  }
}
