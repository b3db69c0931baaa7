/**
Calendar dates from day numbers.

`Civil` is the days-from-epoch algorithm with its divisions as written.  It is
the Gregorian calendar: day zero is Thursday, 1 January 1970, and every later or
earlier day is reached by stepping through the calendar one day at a time.
*/
module Calendar {
  datatype Date = Date(year: int, month: int, day: int, weekday: int)

  /** Division that truncates toward zero. */
  function TruncDiv(a: int, b: int): int
    requires b > 0
  {
    if a >= 0 then a / b else -((-a) / b)
  }

  function YearOfEra(doe: int): int {
    (doe - doe / 1460 + doe / 36524 - doe / 146096) / 365
  }

  function MonthPart(doy: int): int {
    (5 * doy + 2) / 153
  }

  function Civil(days: int): Date {
    var weekday := (days % 7 + 4) % 7;
    var z := days + 719468;
    var era := TruncDiv(if z >= 0 then z else z - 146096, 146097);
    var doe := z - era * 146097;
    var yoe := YearOfEra(doe);
    var y := yoe + era * 400;
    var doy := doe - (365 * yoe + yoe / 4 - yoe / 100);
    var mp := MonthPart(doy);
    var d := doy - (153 * mp + 2) / 5 + 1;
    var m := if mp < 10 then mp + 3 else mp - 9;
    Date(if m <= 2 then y + 1 else y, m, d, weekday)
  }

  // ---------------------------------------------------------------- the calendar

  predicate Leap(y: int) {
    y % 4 == 0 && (y % 100 != 0 || y % 400 == 0)
  }

  function DaysIn(y: int, m: int): int {
    if m == 2 then (if Leap(y) then 29 else 28)
    else if m == 4 || m == 6 || m == 9 || m == 11 then 30
    else 31
  }

  function NextDay(t: Date): Date {
    var w := (t.weekday + 1) % 7;
    if t.day < DaysIn(t.year, t.month) then Date(t.year, t.month, t.day + 1, w)
    else if t.month < 12 then Date(t.year, t.month + 1, 1, w)
    else Date(t.year + 1, 1, 1, w)
  }

  // ---------------------------------------------------------------- years counted from March

  /** Days before year `k` of an era of 400 years that start in March. */
  function YearStart(k: int): int {
    365 * k + k / 4 - k / 100
  }

  /** The last day of year `k` of an era, counted from zero. */
  function LastDay(k: int): int {
    if (k + 1) % 4 == 0 && ((k + 1) % 100 != 0 || k == 399) then 365 else 364
  }

  predicate InEra(k: int, doy: int) {
    0 <= k < 400 && 0 <= doy <= LastDay(k)
  }

  lemma YearsAbut(k: int)
    requires 0 <= k < 400
    ensures k < 399 ==> YearStart(k + 1) == YearStart(k) + LastDay(k) + 1
    ensures YearStart(399) + LastDay(399) + 1 == 146097
  {
    var a, b := k / 4, k % 4;
    var c, d := k / 100, k % 100;
    assert k == 4 * a + b && k == 100 * c + d;
    assert (k + 1) / 4 == if b == 3 then a + 1 else a;
    assert (k + 1) / 100 == if d == 99 then c + 1 else c;
  }

  /** The century of a day of an era; the last day of an era counts as the fourth. */
  lemma CenturyOf(k: int, doy: int)
    requires InEra(k, doy)
    ensures var doe := YearStart(k) + doy; 0 <= doe < 146097 && doe / 36524 - doe / 146096 == k / 100
  {
    var c, d := k / 100, k % 100;
    assert k == 100 * c + d && 0 <= c <= 3;
    assert k / 4 == 25 * c + d / 4;
    var doe := YearStart(k) + doy;
    assert doe == 36524 * c + 365 * d + d / 4 + doy;
    assert d < 99 ==> 365 * d + d / 4 + doy < 36524;
    assert d == 99 ==> 365 * d + d / 4 == 36159;
    assert d == 99 && c < 3 ==> LastDay(k) == 364;
    if c == 0 {
      assert doe / 36524 == 0;
    } else if c == 1 {
      assert doe / 36524 == 1;
    } else if c == 2 {
      assert doe / 36524 == 2;
    }
  }

  /** The algorithm finds the year of an era. */
  lemma FindsYear(k: int, doy: int)
    requires InEra(k, doy)
    ensures YearOfEra(YearStart(k) + doy) == k
  {
    var doe := YearStart(k) + doy;
    var a, b, c := k / 4, k % 4, k / 100;
    assert k == 4 * a + b && 0 <= c <= 3 && c <= a <= 99;
    CenturyOf(k, doy);
    var x := a - c + 365 * b + doy;
    assert doe == 1460 * a + x && 0 <= x;
    assert x < 2920;
    FourYears(doe, a, x);
    var carry := if x >= 1460 then 1 else 0;
    assert doe - doe / 1460 + doe / 36524 - doe / 146096 == 365 * k + doy - carry;
    assert carry == 1 ==> b == 3 && doy >= 1;
    assert doy == 365 ==> b == 3;
    assert doy == 365 ==> carry == 1;
    YearOf(k, doy - carry);
  }

  lemma FourYears(doe: int, a: int, x: int)
    requires doe == 1460 * a + x && 0 <= x < 2920
    ensures doe / 1460 == a + (if x >= 1460 then 1 else 0)
  {
  }

  lemma YearOf(k: int, y: int)
    requires 0 <= y <= 364
    ensures (365 * k + y) / 365 == k
  {
  }

  /** Every day of an era has a year and a day of the year. */
  lemma {:induction false} DayOfEra(doe: int) returns (k: int, doy: int)
    requires 0 <= doe < 146097
    ensures InEra(k, doy) && doe == YearStart(k) + doy
    decreases doe
  {
    if doe == 0 {
      k, doy := 0, 0;
    } else {
      k, doy := DayOfEra(doe - 1);
      YearsAbut(k);
      if doy < LastDay(k) {
        doy := doy + 1;
      } else {
        k, doy := k + 1, 0;
      }
    }
  }

  // ---------------------------------------------------------------- months counted from March

  function MonthStart(mp: int): int {
    (153 * mp + 2) / 5
  }

  lemma MonthStarts()
    ensures MonthStart(0) == 0 && MonthStart(1) == 31 && MonthStart(2) == 61 && MonthStart(3) == 92
    ensures MonthStart(4) == 122 && MonthStart(5) == 153 && MonthStart(6) == 184 && MonthStart(7) == 214
    ensures MonthStart(8) == 245 && MonthStart(9) == 275 && MonthStart(10) == 306 && MonthStart(11) == 337
    ensures MonthStart(12) == 367
  {
  }

  /** The algorithm finds the month of a year. */
  lemma FindsMonth(doy: int)
    requires 0 <= doy <= 365
    ensures var mp := MonthPart(doy); 0 <= mp <= 11 && MonthStart(mp) <= doy < MonthStart(mp + 1)
  {
    var mp := MonthPart(doy);
    assert 153 * mp <= 5 * doy + 2 < 153 * mp + 153;
    assert 5 * MonthStart(mp) <= 153 * mp + 2 < 5 * MonthStart(mp) + 5;
    assert 5 * MonthStart(mp + 1) <= 153 * (mp + 1) + 2 < 5 * MonthStart(mp + 1) + 5;
    MonthStarts();
    if mp == 0 {} else if mp == 1 {} else if mp == 2 {} else if mp == 3 {} else if mp == 4 {} else if mp == 5 {}
    else if mp == 6 {} else if mp == 7 {} else if mp == 8 {} else if mp == 9 {} else if mp == 10 {}
  }

  // ---------------------------------------------------------------- dates

  /** The date of day `doy` of year `k` of an era. */
  function DateOf(era: int, k: int, doy: int, weekday: int): Date {
    var mp := MonthPart(doy);
    var m := if mp < 10 then mp + 3 else mp - 9;
    Date(if m <= 2 then k + era * 400 + 1 else k + era * 400, m, doy - MonthStart(mp) + 1, weekday)
  }

  function Weekday(days: int): int {
    (days % 7 + 4) % 7
  }

  /** The era of a day number, by truncating division. */
  lemma FindsEra(z: int, era: int, doe: int)
    requires z == era * 146097 + doe && 0 <= doe < 146097
    ensures TruncDiv(if z >= 0 then z else z - 146096, 146097) == era
  {
    if z < 0 {
      assert 146096 - z == (-era) * 146097 + (146096 - doe);
    }
  }

  lemma CivilIs(days: int, era: int, k: int, doy: int)
    requires InEra(k, doy) && days + 719468 == era * 146097 + YearStart(k) + doy
    ensures Civil(days) == DateOf(era, k, doy, Weekday(days))
  {
    hide YearOfEra;
    CenturyOf(k, doy);
    FindsEra(days + 719468, era, YearStart(k) + doy);
    FindsYear(k, doy);
  }

  /** February of the civil year a March year ends in is long exactly when the March year is. */
  lemma LeapYears(era: int, k: int)
    requires 0 <= k < 400
    ensures Leap(k + era * 400 + 1) <==> LastDay(k) == 365
  {
    ErasAside(k + 1, era);
  }

  /** Whole eras change no remainder that decides about leap years. */
  lemma ErasAside(n: int, era: int)
    ensures (n + era * 400) % 4 == n % 4 && (n + era * 400) % 100 == n % 100 && (n + era * 400) % 400 == n % 400
  {
    var y := n + era * 400;
    RemainderBy4(y, n / 4 + 100 * era, n % 4);
    RemainderBy100(y, n / 100 + 4 * era, n % 100);
    RemainderBy400(y, n / 400 + era, n % 400);
  }

  lemma RemainderBy4(x: int, t: int, r: int)
    requires x == 4 * t + r && 0 <= r < 4
    ensures x % 4 == r
  {
  }

  lemma RemainderBy100(x: int, t: int, r: int)
    requires x == 100 * t + r && 0 <= r < 100
    ensures x % 100 == r
  {
  }

  lemma RemainderBy400(x: int, t: int, r: int)
    requires x == 400 * t + r && 0 <= r < 400
    ensures x % 400 == r
  {
  }

  /** Within a year the calendar steps from one day to the next. */
  lemma StepsInYear(era: int, k: int, doy: int, w: int)
    requires InEra(k, doy) && doy < LastDay(k)
    ensures NextDay(DateOf(era, k, doy, w)) == DateOf(era, k, doy + 1, (w + 1) % 7)
  {
    hide Leap, MonthPart;
    MonthStarts();
    FindsMonth(doy);
    FindsMonth(doy + 1);
    LeapYears(era, k);
    var mp := MonthPart(doy);
    if mp == 0 {} else if mp == 1 {} else if mp == 2 {} else if mp == 3 {} else if mp == 4 {} else if mp == 5 {}
    else if mp == 6 {} else if mp == 7 {} else if mp == 8 {} else if mp == 9 {} else if mp == 10 {}
  }

  /** The last day of a year is the last of February. */
  lemma LastIsFebruary(era: int, k: int, w: int)
    requires 0 <= k < 400
    ensures var y := k + era * 400 + 1; DateOf(era, k, LastDay(k), w) == Date(y, 2, DaysIn(y, 2), w)
  {
    hide Leap;
    MonthStarts();
    LeapYears(era, k);
    assert MonthPart(364) == 11 && MonthPart(365) == 11;
  }

  /** Stepping a day number is stepping the calendar. */
  lemma CivilSteps(days: int)
    ensures Civil(days + 1) == NextDay(Civil(days))
  {
    hide Civil, DateOf, NextDay;
    var z := days + 719468;
    var era, doe := z / 146097, z % 146097;
    var k, doy := DayOfEra(doe);
    CivilIs(days, era, k, doy);
    YearsAbut(k);
    WeekdaySteps(days);
    if doy < LastDay(k) {
      StepsInYear(era, k, doy, Weekday(days));
      CivilIs(days + 1, era, k, doy + 1);
    } else {
      StepsYear(era, k, Weekday(days));
      if k < 399 {
        CivilIs(days + 1, era, k + 1, 0);
      } else {
        CivilIs(days + 1, era + 1, 0, 0);
      }
    }
  }

  lemma WeekdaySteps(days: int)
    ensures Weekday(days + 1) == (Weekday(days) + 1) % 7
  {
  }

  lemma FirstOfMarch(era: int, k: int, w: int)
    ensures DateOf(era, k, 0, w) == Date(k + era * 400, 3, 1, w)
  {
    assert MonthPart(0) == 0 && MonthStart(0) == 0;
  }

  lemma StepsYear(era: int, k: int, w: int)
    requires 0 <= k < 400
    ensures NextDay(DateOf(era, k, LastDay(k), w))
         == if k < 399 then DateOf(era, k + 1, 0, (w + 1) % 7) else DateOf(era + 1, 0, 0, (w + 1) % 7)
  {
    hide Leap, LastDay, DaysIn, DateOf;
    LastIsFebruary(era, k, w);
    FirstOfMarch(era, k + 1, (w + 1) % 7);
    FirstOfMarch(era + 1, 0, (w + 1) % 7);
  }

  /** Day zero is Thursday, 1 January 1970. */
  lemma CivilAnchor()
    ensures Civil(0) == Date(1970, 1, 1, 4)
  {
    hide Civil;
    CivilIs(0, 4, 369, 306);
  }

  /** The date `n` days after a given one. */
  function After(t: Date, n: nat): Date {
    if n == 0 then t else NextDay(After(t, n - 1))
  }

  /** The algorithm is the Gregorian calendar: `n` calendar steps from any day reach the day `n` later. */
  lemma {:induction false} CivilIsGregorian(days: int, n: nat)
    ensures Civil(days + n) == After(Civil(days), n)
    decreases n
  {
    hide Civil, NextDay;
    if n > 0 {
      CivilIsGregorian(days, n - 1);
      CivilSteps(days + n - 1);
    }
  }

  /** Every date produced is a real one. */
  lemma CivilValid(days: int)
    ensures var t := Civil(days); 1 <= t.month <= 12 && 1 <= t.day <= DaysIn(t.year, t.month) && 0 <= t.weekday < 7
  {
    hide Civil, Leap, MonthPart;
    var z := days + 719468;
    var era, doe := z / 146097, z % 146097;
    var k, doy := DayOfEra(doe);
    CivilIs(days, era, k, doy);
    MonthStarts();
    FindsMonth(doy);
    LeapYears(era, k);
    var mp := MonthPart(doy);
    if mp == 0 {} else if mp == 1 {} else if mp == 2 {} else if mp == 3 {} else if mp == 4 {} else if mp == 5 {}
    else if mp == 6 {} else if mp == 7 {} else if mp == 8 {} else if mp == 9 {} else if mp == 10 {}
  }

  // ---------------------------------------------------------------- which dates occur

  /** The most days a month ever has. */
  function MostDays(m: int): int {
    if m == 2 then 29 else DaysIn(0, m)
  }

  lemma WithinMost(y: int, m: int)
    ensures DaysIn(y, m) <= MostDays(m)
  {
  }

  /** A long March year, within 28 years of 2000, that starts `r` days into the week. */
  function LongYear(r: int): int {
    if r == 0 then 23 else if r == 1 then 7 else if r == 2 then 19 else if r == 3 then 3
    else if r == 4 then 15 else if r == 5 then 27 else 11
  }

  lemma LongYears(r: int)
    requires 0 <= r < 7
    ensures var k := LongYear(r); 0 <= k < 400 && LastDay(k) == 365 && YearStart(k) % 7 == r && YearStart(k) >= 0
  {
  }

  lemma MonthsApart(a: int, b: int)
    requires 0 <= a < b <= 12
    ensures MonthStart(a + 1) <= MonthStart(b)
  {
  }

  /** Day `d` of the month that begins on day `MonthStart(mp)` of a March year is found. */
  lemma FindsDay(mp: int, d: int)
    requires 0 <= mp <= 11 && 1 <= d && MonthStart(mp) + d <= MonthStart(mp + 1) && MonthStart(mp) + d <= 366
    ensures MonthPart(MonthStart(mp) + d - 1) == mp
  {
    hide MonthPart, MonthStart;
    assert MonthStart(mp) >= 0 by { StartsForward(mp); }
    var doy := MonthStart(mp) + d - 1;
    FindsMonth(doy);
    var found := MonthPart(doy);
    if found < mp {
      MonthsApart(found, mp);
    } else if found > mp {
      MonthsApart(mp, found);
    }
  }

  lemma StartsForward(mp: int)
    requires mp >= 0
    ensures MonthStart(mp) >= 0
  {
  }

  /** How months lie in a March year. */
  lemma MonthFits(m: int, d: int)
    requires 1 <= m <= 12 && 1 <= d <= MostDays(m)
    ensures var mp := if m >= 3 then m - 3 else m + 9;
            0 <= mp <= 11 && MonthStart(mp) + d <= MonthStart(mp + 1) && MonthStart(mp) + d <= 366
  {
    MonthStarts();
    if m == 1 {} else if m == 2 {} else if m == 3 {} else if m == 4 {} else if m == 5 {} else if m == 6 {}
    else if m == 7 {} else if m == 8 {} else if m == 9 {} else if m == 10 {} else if m == 11 {}
  }

  lemma WeekdayChosen(r: int, doy: int, w: int, start: int)
    requires 0 <= w < 7 && 0 <= r < 7 && r == (w - 4 - 11017 - doy) % 7 && start % 7 == r
    ensures Weekday(11017 + start + doy) == w
  {
    var q := (w - 4 - 11017 - doy) / 7;
    assert w - 4 - 11017 - doy == 7 * q + r;
    var s := start / 7;
    assert start == 7 * s + r;
    assert 11017 + start + doy == 7 * (s - q) + w - 4;
  }

  /** Every day of every month falls on every weekday, 29 February included, some day after 1970. */
  lemma DateOccurs(m: int, d: int, w: int) returns (days: nat)
    requires 1 <= m <= 12 && 1 <= d <= MostDays(m) && 0 <= w < 7
    ensures Civil(days).month == m && Civil(days).day == d && Civil(days).weekday == w
  {
    hide Civil, MonthPart, MonthStart, YearStart, LastDay, MostDays, LongYear, Weekday;
    var mp := if m >= 3 then m - 3 else m + 9;
    MonthFits(m, d);
    StartsForward(mp);
    var doy := MonthStart(mp) + d - 1;
    var r := (w - 4 - 11017 - doy) % 7;
    var k := LongYear(r);
    LongYears(r);
    days := 11017 + YearStart(k) + doy;
    WeekdayChosen(r, doy, w, YearStart(k));
    CivilIs(days, 5, k, doy);
    FindsDay(mp, d);
  }
}
