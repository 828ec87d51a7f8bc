/**
 The UTC timestamps of the login client (`timestamp` in sdk/c/remote/ob_auth.c): a strict spelling, and a
 closed form for the day number, against counting years and months one by one from 1970.
 */
module Calendar {

  predicate Leap(y: int) {
    (y % 4 == 0 && y % 100 != 0) || y % 400 == 0
  }

  function MonthDays(y: int, m: int): int
    requires 1 <= m <= 12
  {
    [31, 28, 31, 30, 31, 30, 31, 31, 30, 31, 30, 31][m - 1] + (if m == 2 && Leap(y) then 1 else 0)
  }

  function YearDays(y: int): int {
    if Leap(y) then 366 else 365
  }

  predicate ValidDate(y: int, m: int, d: int) {
    1970 <= y && 1 <= m <= 12 && 1 <= d <= MonthDays(y, m)
  }

  // ---- counting ---------------------------------------------------------------------------------

  function DaysToYear(y: int): int
    requires 1970 <= y
    decreases y
  {
    if y == 1970 then 0 else DaysToYear(y - 1) + YearDays(y - 1)
  }

  function DaysToMonth(y: int, m: int): int
    requires 1 <= m <= 12
    decreases m
  {
    if m == 1 then 0 else DaysToMonth(y, m - 1) + MonthDays(y, m - 1)
  }

  /** Days since the first of January 1970, year by year and month by month. */
  function DayNumber(y: int, m: int, d: int): int
    requires ValidDate(y, m, d)
  {
    DaysToYear(y) + DaysToMonth(y, m) + d - 1
  }

  // ---- the closed form --------------------------------------------------------------------------

  /** Days before the first of March of year `a`, from the start of the 400-year eras. */
  function DaysToMarch(a: int): int
    requires 0 <= a
  {
    var era := a / 400;
    var yoe := a - era * 400;
    era * 146097 + yoe * 365 + yoe / 4 - yoe / 100
  }

  function ClosedForm(y: int, m: int, d: int): int
    requires 1 <= y && 1 <= m <= 12
  {
    var adjusted := y - (if m <= 2 then 1 else 0);
    var shifted := m + (if m > 2 then -3 else 9);
    DaysToMarch(adjusted) + (153 * shifted + 2) / 5 + d - 1 - 719468
  }

  lemma Quarters(q: int)
    requires 1 <= q
    ensures q / 4 - (q - 1) / 4 == if q % 4 == 0 then 1 else 0
  {}

  lemma Hundreds(q: int)
    requires 1 <= q
    ensures q / 100 - (q - 1) / 100 == if q % 100 == 0 then 1 else 0
  {}

  lemma WithinEra(y: int)
    requires 1 <= y
    ensures y % 4 == (y % 400) % 4 && y % 100 == (y % 400) % 100
    ensures y % 400 == 0 ==> (y - 1) / 400 == y / 400 - 1 && (y - 1) % 400 == 399
    ensures y % 400 != 0 ==> (y - 1) / 400 == y / 400 && (y - 1) % 400 == y % 400 - 1
  {}

  function InEra(era: int, yoe: int): int {
    era * 146097 + yoe * 365 + yoe / 4 - yoe / 100
  }

  lemma DaysToMarchInEra(a: int)
    requires 0 <= a
    ensures DaysToMarch(a) == InEra(a / 400, a % 400)
  {}

  /** A year that starts in March is as long as its February, which lies in the next calendar year, makes it. */
  lemma MarchToMarch(y: int)
    requires 1 <= y
    ensures DaysToMarch(y) - DaysToMarch(y - 1) == YearDays(y)
  {
    DaysToMarchInEra(y);
    DaysToMarchInEra(y - 1);
    WithinEra(y);
    if y % 400 != 0 {
      Quarters(y % 400);
      Hundreds(y % 400);
    }
  }

  lemma MonthStep(y: int, m: int)
    requires 1 <= y && 1 <= m <= 11
    ensures ClosedForm(y, m + 1, 1) == ClosedForm(y, m, 1) + MonthDays(y, m)
  {
    if m == 2 {
      MarchToMarch(y);
    } else {
      var k := m + (if m > 2 then -3 else 9);
      assert (153 * (k + 1) + 2) / 5 - (153 * k + 2) / 5 == MonthDays(y, m);
    }
  }

  lemma YearStep(y: int)
    requires 1 <= y
    ensures ClosedForm(y + 1, 1, 1) == ClosedForm(y, 12, 1) + 31
  {}

  lemma {:induction false} ClosedMonths(y: int, m: int)
    requires 1 <= y && 1 <= m <= 12
    ensures ClosedForm(y, m, 1) == ClosedForm(y, 1, 1) + DaysToMonth(y, m)
    decreases m
  {
    if m > 1 {
      ClosedMonths(y, m - 1);
      MonthStep(y, m - 1);
    }
  }

  lemma TwelveMonths(y: int)
    ensures DaysToMonth(y, 12) + 31 == YearDays(y)
  {
    assert DaysToMonth(y, 3) == 31 + MonthDays(y, 2);
    assert DaysToMonth(y, 5) == DaysToMonth(y, 3) + 61;
    assert DaysToMonth(y, 7) == DaysToMonth(y, 5) + 61;
    assert DaysToMonth(y, 9) == DaysToMonth(y, 7) + 62;
    assert DaysToMonth(y, 11) == DaysToMonth(y, 9) + 61;
  }

  lemma {:induction false} ClosedYears(y: int)
    requires 1970 <= y
    ensures ClosedForm(y, 1, 1) == DaysToYear(y)
    decreases y
  {
    if y > 1970 {
      ClosedYears(y - 1);
      ClosedMonths(y - 1, 12);
      YearStep(y - 1);
      TwelveMonths(y - 1);
    }
  }

  /** The closed form is the day number, for every valid date from 1970 on. */
  lemma ClosedFormCounts(y: int, m: int, d: int)
    requires ValidDate(y, m, d)
    ensures ClosedForm(y, m, d) == DayNumber(y, m, d)
  {
    ClosedYears(y);
    ClosedMonths(y, m);
  }

  // ---- the spelling -----------------------------------------------------------------------------

  predicate Digit(c: char) {
    '0' <= c <= '9'
  }

  function Value(c: char): int {
    c as int - '0' as int
  }

  function Two(s: string, i: nat): int
    requires i + 2 <= |s|
  {
    10 * Value(s[i]) + Value(s[i + 1])
  }

  function Four(s: string, i: nat): int
    requires i + 4 <= |s|
  {
    100 * Two(s, i) + Two(s, i + 2)
  }

  const SEPARATORS: map<int, char> := map[4 := '-', 7 := '-', 10 := 'T', 13 := ':', 16 := ':']

  /** The first nineteen characters: digits, with the separators in their places. */
  predicate Shape(s: string) {
    |s| >= 19 && forall i :: 0 <= i < 19 ==> if i in SEPARATORS then s[i] == SEPARATORS[i] else Digit(s[i])
  }

  predicate ValidFields(s: string)
    requires |s| >= 19
  {
    && 1970 <= Four(s, 0) <= 9999 && ValidDate(Four(s, 0), Two(s, 5), Two(s, 8))
    && 0 <= Two(s, 11) <= 23 && 0 <= Two(s, 14) <= 59 && 0 <= Two(s, 17) <= 59
  }

  /** What follows the seconds: "Z", or a point, one to nine digits, and "Z". */
  predicate ValidTail(t: string) {
    || (|t| == 1 && t[0] == 'Z')
    || (3 <= |t| <= 11 && t[0] == '.' && t[|t| - 1] == 'Z' && forall i :: 1 <= i < |t| - 1 ==> Digit(t[i]))
  }

  /** The milliseconds: the first three fractional digits, a missing one counting as zero. */
  function Millis(t: string): int
    requires ValidTail(t)
  {
    if |t| == 1 then 0
    else
      100 * Value(t[1]) + (if |t| > 3 then 10 * Value(t[2]) else 0) + (if |t| > 4 then Value(t[3]) else 0)
  }

  predicate ValidStamp(s: string) {
    20 <= |s| <= 30 && Shape(s) && ValidFields(s) && ValidTail(s[19..])
  }

  /** Milliseconds since 1970 by counting days. */
  function StampValue(s: string): int
    requires ValidStamp(s)
  {
    ((DayNumber(Four(s, 0), Two(s, 5), Two(s, 8)) * 24 + Two(s, 11)) * 60 + Two(s, 14)) * 60000 + Two(s, 17) * 1000 +
      Millis(s[19..])
  }

  /** The fraction and the final "Z", as the C code reads them; -1 when they are malformed. */
  method Fraction(t: string) returns (millis: int)
    requires |t| <= 11
    ensures millis == if ValidTail(t) then Millis(t) else -1
  {
    var p := 0;
    millis := 0;
    if |t| > 0 && t[0] == '.' {
      p := 1;
      var digits := 0;
      while p < |t| && Digit(t[p])
        invariant 1 <= p <= |t| && digits == p - 1 && forall i :: 1 <= i < p ==> Digit(t[i])
        invariant digits == 0 ==> millis == 0
        invariant digits == 1 ==> millis == Value(t[1])
        invariant digits == 2 ==> millis == 10 * Value(t[1]) + Value(t[2])
        invariant digits >= 3 ==> millis == 100 * Value(t[1]) + 10 * Value(t[2]) + Value(t[3])
      {
        if digits < 3 {
          millis := millis * 10 + Value(t[p]);
        }
        digits := digits + 1;
        p := p + 1;
      }
      assert ValidTail(t) ==> p == |t| - 1;
      if digits == 0 || digits > 9 {
        return -1;
      }
      while digits < 3
        invariant digits >= 1 && (p <= 3 ==> digits <= 3)
        invariant p == 2 ==> millis == [Value(t[1]), 10 * Value(t[1]), 100 * Value(t[1])][digits - 1]
        invariant p == 3 ==>
                  digits >= 2 && millis ==
                    [10 * Value(t[1]) + Value(t[2]), 100 * Value(t[1]) + 10 * Value(t[2])][digits - 2]
        invariant p > 3 ==> millis == 100 * Value(t[1]) + 10 * Value(t[2]) + Value(t[3]) && digits >= 3
      {
        millis := millis * 10;
        digits := digits + 1;
      }
    }
    if p >= |t| || t[p] != 'Z' || p + 1 != |t| {
      return -1;
    }
  }

  method CheckShape(s: string) returns (ok: bool)
    requires |s| >= 19
    ensures ok <==> Shape(s)
  {
    var i := 0;
    while i < 19
      invariant 0 <= i <= 19 && forall j :: 0 <= j < i ==>
                if j in SEPARATORS then s[j] == SEPARATORS[j] else Digit(s[j])
    {
      if i in SEPARATORS {
        if s[i] != SEPARATORS[i] {
          return false;
        }
      } else if !Digit(s[i]) {
        return false;
      }
      i := i + 1;
    }
    return true;
  }

  /** `timestamp`: zero for anything but a complete and valid spelling. */
  method Timestamp(s: string) returns (ms: int)
    ensures ms == if ValidStamp(s) then StampValue(s) else 0
  {
    if |s| < 20 || |s| > 30 {
      return 0;
    }
    var shape := CheckShape(s);
    if !shape {
      return 0;
    }
    var y, m, d, h, min, sec := Four(s, 0), Two(s, 5), Two(s, 8), Two(s, 11), Two(s, 14), Two(s, 17);
    if y < 1970 || y > 9999 || m < 1 || m > 12 || d < 1 || h < 0 || h > 23 || min < 0 || min > 59 || sec < 0 ||
      sec > 59 {
      return 0;
    }
    if d > MonthDays(y, m) {
      return 0;
    }
    var millis := Fraction(s[19..]);
    if millis < 0 {
      return 0;
    }
    ClosedFormCounts(y, m, d);
    var days := ClosedForm(y, m, d);
    return ((days * 24 + h) * 60 + min) * 60000 + sec * 1000 + millis;
  }
}
