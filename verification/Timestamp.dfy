/** UTC timestamps in the style of section 5.6 of RFC 3339, to signed 64-bit nanoseconds:
    parse_timestamp of both L2 parsers (the two functions are the same algorithm). */
module Timestamp {
  import opened Base
  import opened Decimal

  newtype int32 = x: int | -0x8000_0000 <= x <= 0x7FFF_FFFF

  // ----- The proleptic Gregorian calendar, by counting -----

  predicate Leap(y: nat) { y % 4 == 0 && (y % 100 != 0 || y % 400 == 0) }

  function YearLength(y: nat): (n: nat) { if Leap(y) then 366 else 365 }

  function MonthLength(y: nat, m: nat): (n: nat)
  {
    if m == 2 then if Leap(y) then 29 else 28
    else if m == 4 || m == 6 || m == 9 || m == 11 then 30 else 31
  }

  /** Days from 0001-01-01 to January 1st of year y. */
  function DaysBeforeYear(y: nat): (n: nat)
    requires y >= 1
  {
    if y == 1 then 0 else DaysBeforeYear(y - 1) + YearLength(y - 1)
  }

  function DaysBeforeMonth(y: nat, m: nat): (n: nat)
    requires 1 <= m <= 13
  {
    if m == 1 then 0 else DaysBeforeMonth(y, m - 1) + MonthLength(y, m - 1)
  }

  predicate ValidDate(y: nat, m: nat, d: nat) { y >= 1 && 1 <= m <= 12 && 1 <= d <= MonthLength(y, m) }

  /** Days from 1970-01-01, negative before it. */
  function EpochDay(y: nat, m: nat, d: nat): (n: int)
    requires ValidDate(y, m, d)
  {
    DaysBeforeYear(y) + DaysBeforeMonth(y, m) + d - 1 - DaysBeforeYear(1970)
  }

  lemma {:induction false} DaysBeforeYearAtMost(y: nat)
    requires y >= 1
    ensures DaysBeforeYear(y) <= 366 * (y - 1)
  {
    if y > 1 {
      DaysBeforeYearAtMost(y - 1);
    }
  }

  lemma YearIsItsMonths(y: nat)
    ensures DaysBeforeMonth(y, 13) == YearLength(y)
  {
    assert DaysBeforeMonth(y, 2) == 31;
    assert DaysBeforeMonth(y, 3) == 31 + MonthLength(y, 2);
    assert DaysBeforeMonth(y, 5) == DaysBeforeMonth(y, 3) + 61;
    assert DaysBeforeMonth(y, 7) == DaysBeforeMonth(y, 5) + 61;
    assert DaysBeforeMonth(y, 9) == DaysBeforeMonth(y, 7) + 62;
    assert DaysBeforeMonth(y, 11) == DaysBeforeMonth(y, 9) + 61;
  }

  lemma {:induction false} MonthsGrow(y: nat, m: nat, n: nat)
    requires 1 <= m < n <= 13
    ensures DaysBeforeMonth(y, m) + MonthLength(y, m) <= DaysBeforeMonth(y, n)
  {
    if m + 1 < n {
      MonthsGrow(y, m, n - 1);
    }
  }

  lemma {:induction false} YearsGrow(y: nat, z: nat)
    requires 1 <= y < z
    ensures DaysBeforeYear(y) + YearLength(y) <= DaysBeforeYear(z)
  {
    if y + 1 < z {
      YearsGrow(y, z - 1);
    }
  }

  lemma DayWithinYear(y: nat, m: nat, d: nat)
    requires ValidDate(y, m, d)
    ensures 1 <= DaysBeforeMonth(y, m) + d <= YearLength(y)
  {
    MonthsGrow(y, m, 13);
    YearIsItsMonths(y);
  }

  // ----- Instants -----

  datatype Instant = Instant(year: nat, month: nat, day: nat, hour: nat, minute: nat, second: nat, fraction: nat)
  {
    predicate Valid()
    {
      ValidDate(year, month, day) && hour <= 23 && minute <= 59 && second <= 59 && fraction < 1_000_000_000
    }

    function SecondOfDay(): (n: nat) { hour * 3600 + minute * 60 + second }

    function EpochSecond(): (n: int)
      requires Valid()
    {
      EpochDay(year, month, day) * 86400 + SecondOfDay()
    }

    /** The exact nanosecond count, unbounded. */
    function Nanoseconds(): (n: int)
      requires Valid()
    {
      EpochSecond() * 1_000_000_000 + fraction
    }

    /** Calendar order, field by field. */
    predicate Before(b: Instant)
    {
      if year != b.year then year < b.year
      else if month != b.month then month < b.month
      else if day != b.day then day < b.day
      else if hour != b.hour then hour < b.hour
      else if minute != b.minute then minute < b.minute
      else if second != b.second then second < b.second
      else fraction < b.fraction
    }
  }

  lemma DateOrder(a: Instant, b: Instant)
    requires a.Valid() && b.Valid()
    ensures EpochDay(a.year, a.month, a.day) < EpochDay(b.year, b.month, b.day) <==>
            (a.year < b.year || (a.year == b.year && (a.month < b.month || (a.month == b.month && a.day < b.day))))
  {
    DayWithinYear(a.year, a.month, a.day);
    DayWithinYear(b.year, b.month, b.day);
    if a.year < b.year {
      YearsGrow(a.year, b.year);
    } else if b.year < a.year {
      YearsGrow(b.year, a.year);
    } else if a.month < b.month {
      MonthsGrow(a.year, a.month, b.month);
    } else if b.month < a.month {
      MonthsGrow(a.year, b.month, a.month);
    }
  }

  /** The nanosecond count orders instants exactly as the calendar does; in particular it is injective. */
  lemma NanosecondsOrderInstants(a: Instant, b: Instant)
    requires a.Valid() && b.Valid()
    ensures a.Nanoseconds() < b.Nanoseconds() <==> a.Before(b)
    ensures a.Nanoseconds() == b.Nanoseconds() <==> a == b
  {
    DateOrder(a, b);
    DateOrder(b, a);
    var x, y := EpochDay(a.year, a.month, a.day), EpochDay(b.year, b.month, b.day);
    assert a.SecondOfDay() < 86400 && b.SecondOfDay() < 86400;
  }

  /** The day after a date. */
  function NextDay(y: nat, m: nat, d: nat): (r: (nat, nat, nat))
    requires ValidDate(y, m, d)
    ensures ValidDate(r.0, r.1, r.2)
  {
    if d < MonthLength(y, m) then (y, m, d + 1) else if m < 12 then (y, m + 1, 1) else (y + 1, 1, 1)
  }

  /** Day numbers count: the epoch is day zero and each date is one after the date before it. */
  lemma EpochDayCounts(y: nat, m: nat, d: nat)
    requires ValidDate(y, m, d)
    ensures EpochDay(1970, 1, 1) == 0
    ensures var n := NextDay(y, m, d); EpochDay(n.0, n.1, n.2) == EpochDay(y, m, d) + 1
  {
    if d == MonthLength(y, m) && m == 12 {
      YearIsItsMonths(y);
      assert DaysBeforeYear(y + 1) == DaysBeforeYear(y) + YearLength(y);
    }
  }

  // ----- Text -----

  predicate DigitsAt(s: string, offset: nat, length: nat)
  {
    offset + length <= |s| && AllDigits(s[offset..offset + length])
  }

  function NumberAt(s: string, offset: nat, length: nat): (n: nat)
    requires DigitsAt(s, offset, length)
  {
    Value(s[offset..offset + length])
  }

  /** Dates and times as YYYY-MM-DDTHH:MM:SS[.fraction]Z with one to nine fractional digits. */
  predicate Shape(s: string)
  {
    && |s| >= 20
    && s[4] == '-' && s[7] == '-' && s[10] == 'T' && s[13] == ':' && s[16] == ':' && s[|s| - 1] == 'Z'
    && DigitsAt(s, 0, 4) && DigitsAt(s, 5, 2) && DigitsAt(s, 8, 2)
    && DigitsAt(s, 11, 2) && DigitsAt(s, 14, 2) && DigitsAt(s, 17, 2)
    && (|s| != 20 ==> s[19] == '.' && 22 <= |s| <= 30 && DigitsAt(s, 20, |s| - 21))
  }

  function InstantOf(s: string): (i: Instant)
    requires Shape(s)
  {
    Instant(NumberAt(s, 0, 4), NumberAt(s, 5, 2), NumberAt(s, 8, 2),
            NumberAt(s, 11, 2), NumberAt(s, 14, 2), NumberAt(s, 17, 2),
            if |s| == 20 then 0 else NumberAt(s, 20, |s| - 21) * Pow10(30 - |s|))
  }

  predicate WellFormed(s: string) { Shape(s) && InstantOf(s).Valid() }

  /** Digits at an offset as a machine int: fails exactly on a non-digit, and never overflows. */
  method Number(s: string, offset: nat, length: nat) returns (ok: bool, result: int32)
    requires offset + length <= |s| && length <= 9
    ensures ok <==> DigitsAt(s, offset, length)
    ensures ok ==> result as int == NumberAt(s, offset, length)
    ensures 0 <= result
  {
    ok, result := true, 0;
    var i := offset;
    while i < offset + length
      invariant offset <= i <= offset + length
      invariant AllDigits(s[offset..i]) && result as int == Value(s[offset..i])
      invariant result >= 0
    {
      if s[i] < '0' || s[i] > '9' {
        assert s[offset..offset + length][i - offset] == s[i];
        return false, 0;
      }
      SmallValue(s[offset..i]);
      assert s[offset..i + 1] == s[offset..i] + [s[i]];
      assert s[offset..i + 1][..i - offset] == s[offset..i];
      result := result * 10 + (s[i] as int - '0' as int) as int32;
      i := i + 1;
    }
  }

  lemma SmallValue(d: string)
    requires AllDigits(d) && |d| <= 8
    ensures Value(d) < 100_000_000
  {
    ValueBelow(d);
    assert Pow10(8) == 100_000_000 by { assert Pow10(4) == 10_000; }
    Pow10Add(|d|, 8 - |d|);
    assert Pow10(|d|) * Pow10(8 - |d|) >= Pow10(|d|);
  }

  /** C++ integer division and remainder, which truncate toward zero. */
  function TruncDiv(a: int, b: nat): (q: int)
    requires b > 0
  {
    if a >= 0 then a / b else -((-a) / b)
  }

  function TruncMod(a: int, b: nat): (r: int)
    requires b > 0
  {
    a - TruncDiv(a, b) * b
  }

  /** Whole seconds and a fraction to nanoseconds: accepted exactly when the exact count fits, with every
      intermediate result in range on both sides of the epoch. */
  method Combine(seconds: int64, fraction: int64) returns (r: Option<int64>)
    requires 0 <= fraction < 1_000_000_000
    ensures r.Some? <==> INT64_MIN <= seconds as int * 1_000_000_000 + fraction as int <= INT64_MAX
    ensures r.Some? ==> r.value as int == seconds as int * 1_000_000_000 + fraction as int
  {
    var billion: int64 := 1_000_000_000;
    if seconds >= 0 {
      if seconds > (0x7FFF_FFFF_FFFF_FFFF - fraction) / billion {
        return None;
      }
      return Some(seconds * billion + fraction);
    }
    var quotient := TruncDiv(INT64_MIN, 1_000_000_000) as int64;
    var remainder := TruncMod(INT64_MIN, 1_000_000_000) as int64;
    if seconds < quotient - 1 || (seconds == quotient - 1 && fraction < billion + remainder) {
      return None;
    }
    return Some((seconds + 1) * billion + (fraction - billion));
  }

  lemma DayInRange(y: nat, m: nat, d: nat)
    requires ValidDate(y, m, d) && y <= 9999
    ensures -800_000 <= EpochDay(y, m, d) <= 4_000_000
  {
    DaysBeforeYearAtMost(1970);
    DaysBeforeYearAtMost(y);
    DayWithinYear(y, m, d);
  }

  /** Padding to nine digits, as the source does it. */
  method Fraction(s: string) returns (ok: bool, fraction: int64)
    requires 22 <= |s| <= 30
    ensures ok <==> DigitsAt(s, 20, |s| - 21)
    ensures ok ==> fraction as int == NumberAt(s, 20, |s| - 21) * Pow10(30 - |s|)
    ensures ok ==> 0 <= fraction < 1_000_000_000
  {
    var digits := |s| - 21;
    var number;
    ok, number := Number(s, 20, digits);
    fraction := 0;
    if ok {
      ghost var text := s[20..20 + digits];
      ValueBelow(text);
      fraction := number as int64;
      var i := digits;
      while i < 9
        invariant digits <= i <= 9
        invariant fraction as int == Value(text) * Pow10(i - digits) < Pow10(i)
        invariant fraction >= 0
      {
        PowerBounds(i);
        OneMoreZero(Value(text), i - digits, i);
        fraction := fraction * 10;
        i := i + 1;
      }
      PowerBounds(9);
    }
  }

  lemma OneMoreZero(v: nat, k: nat, i: nat)
    ensures v * Pow10(k + 1) == v * Pow10(k) * 10
    ensures v * Pow10(k) < Pow10(i) ==> v * Pow10(k + 1) < Pow10(i + 1)
  {
    Associate(v, Pow10(k), 10);
  }

  lemma PowerBounds(i: nat)
    requires i <= 9
    ensures Pow10(i) <= 1_000_000_000
  {
    assert Pow10(9) == 1_000_000_000 by { assert Pow10(5) == 100_000; }
    Pow10Add(i, 9 - i);
    assert Pow10(i) * Pow10(9 - i) >= Pow10(i);
  }

  /** Accepts exactly the well-formed calendar instants whose nanosecond count fits int64, and returns it. */
  method ParseTimestamp(s: string) returns (r: Option<int64>)
    ensures r.Some? <==> WellFormed(s) && INT64_MIN <= InstantOf(s).Nanoseconds() <= INT64_MAX
    ensures r.Some? ==> r.value as int == InstantOf(s).Nanoseconds()
  {
    if |s| < 20 || s[4] != '-' || s[7] != '-' || s[10] != 'T' ||
       s[13] != ':' || s[16] != ':' || s[|s| - 1] != 'Z' {
      return None;
    }
    var ok, year := Number(s, 0, 4);
    if !ok { return None; }
    var month, day, hour, minute, second;
    ok, month := Number(s, 5, 2);
    if !ok { return None; }
    ok, day := Number(s, 8, 2);
    if !ok { return None; }
    ok, hour := Number(s, 11, 2);
    if !ok { return None; }
    ok, minute := Number(s, 14, 2);
    if !ok { return None; }
    ok, second := Number(s, 17, 2);
    if !ok { return None; }
    if year == 0 || !ValidDate(year as nat, month as nat, day as nat) || hour > 23 || minute > 59 || second > 59 {
      return None;
    }
    var fraction: int64 := 0;
    if |s| != 20 {
      if s[19] != '.' || |s| < 22 || |s| > 30 {
        return None;
      }
      ok, fraction := Fraction(s);
      if !ok { return None; }
    }
    YearBound(s);
    DayInRange(year as nat, month as nat, day as nat);
    assert InstantOf(s).Valid();
    var seconds := EpochDay(year as nat, month as nat, day as nat) as int64 * 86400 +
                   (hour as int64) * 3600 + (minute as int64) * 60 + second as int64;
    r := Combine(seconds, fraction);
  }

  lemma YearBound(s: string)
    requires DigitsAt(s, 0, 4)
    ensures NumberAt(s, 0, 4) <= 9999
  {
    ValueBelow(s[0..4]);
    assert Pow10(4) == 10_000;
  }
}
