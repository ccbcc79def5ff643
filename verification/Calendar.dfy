/** Seconds since 1970 to Gregorian dates, against a day count that adds up whole years and months. */
module Calendar {
  import opened Bits

  datatype Date = Date(year: nat, month: nat, day: nat)
  datatype Time = Time(hour: nat, minute: nat, second: nat)

  // ---- The reference: lengths of years and months, added up

  predicate Leap(y: nat) { (y % 4 == 0 && y % 100 != 0) || y % 400 == 0 }

  function YearLength(y: nat): nat { if Leap(y) then 366 else 365 }

  function MonthLength(y: nat, m: nat): nat {
    if m == 2 then (if Leap(y) then 29 else 28)
    else if m == 4 || m == 6 || m == 9 || m == 11 then 30
    else 31
  }

  /** Days from 1 January 1970 to 1 January of year y. */
  function DaysBeforeYear(y: nat): nat
    requires y >= 1970
  {
    if y == 1970 then 0 else DaysBeforeYear(y - 1) + YearLength(y - 1)
  }

  /** Days from 1 January to the first of month m. */
  function DaysBeforeMonth(y: nat, m: nat): nat {
    if m <= 1 then 0 else DaysBeforeMonth(y, m - 1) + MonthLength(y, m - 1)
  }

  predicate ValidDate(d: Date) {
    d.year >= 1970 && 1 <= d.month <= 12 && 1 <= d.day <= MonthLength(d.year, d.month)
  }

  predicate ValidTime(t: Time) { t.hour < 24 && t.minute < 60 && t.second < 60 }

  function DayNumber(d: Date): nat
    requires ValidDate(d)
  {
    DaysBeforeYear(d.year) + DaysBeforeMonth(d.year, d.month) + d.day - 1
  }

  /** Seconds since 1 January 1970, 00:00:00, every day having 86400 of them. */
  function SecondsOf(d: Date, t: Time): nat
    requires ValidDate(d)
  {
    DayNumber(d) * 86400 + t.hour * 3600 + t.minute * 60 + t.second
  }

  // ---- Dates and day numbers correspond

  lemma {:induction false} BeforeYearGrows(y: nat, z: nat)
    requires 1970 <= y < z
    ensures DaysBeforeYear(y) + YearLength(y) <= DaysBeforeYear(z)
    decreases z
  {
    if y + 1 < z { BeforeYearGrows(y, z - 1); }
  }

  lemma {:induction false} BeforeMonthGrows(y: nat, m: nat, n: nat)
    requires 1 <= m < n
    ensures DaysBeforeMonth(y, m) + MonthLength(y, m) <= DaysBeforeMonth(y, n)
    decreases n
  {
    if m + 1 < n { BeforeMonthGrows(y, m, n - 1); }
  }

  /** The twelve months make up the year. */
  lemma MonthsMakeYear(y: nat)
    ensures DaysBeforeMonth(y, 13) == YearLength(y)
    ensures DaysBeforeMonth(y, 1) == 0 && DaysBeforeMonth(y, 2) == 31
    ensures var n := if Leap(y) then 60 else 59;
            && DaysBeforeMonth(y, 3) == n && DaysBeforeMonth(y, 4) == n + 31 && DaysBeforeMonth(y, 5) == n + 61
            && DaysBeforeMonth(y, 6) == n + 92 && DaysBeforeMonth(y, 7) == n + 122 && DaysBeforeMonth(y, 8) == n + 153
            && DaysBeforeMonth(y, 9) == n + 184 && DaysBeforeMonth(y, 10) == n + 214 && DaysBeforeMonth(y, 11) == n + 245
            && DaysBeforeMonth(y, 12) == n + 275
  {
    hide Leap;
    assert DaysBeforeMonth(y, 3) == DaysBeforeMonth(y, 2) + MonthLength(y, 2);
    assert DaysBeforeMonth(y, 4) == DaysBeforeMonth(y, 3) + 31;
    assert DaysBeforeMonth(y, 5) == DaysBeforeMonth(y, 4) + 30;
    assert DaysBeforeMonth(y, 6) == DaysBeforeMonth(y, 5) + 31;
    assert DaysBeforeMonth(y, 7) == DaysBeforeMonth(y, 6) + 30;
    assert DaysBeforeMonth(y, 8) == DaysBeforeMonth(y, 7) + 31;
    assert DaysBeforeMonth(y, 9) == DaysBeforeMonth(y, 8) + 31;
    assert DaysBeforeMonth(y, 10) == DaysBeforeMonth(y, 9) + 30;
    assert DaysBeforeMonth(y, 11) == DaysBeforeMonth(y, 10) + 31;
    assert DaysBeforeMonth(y, 12) == DaysBeforeMonth(y, 11) + 30;
    assert DaysBeforeMonth(y, 13) == DaysBeforeMonth(y, 12) + 31;
  }

  /** A date is determined by its day number. */
  lemma DayNumberInjective(a: Date, b: Date)
    requires ValidDate(a) && ValidDate(b) && DayNumber(a) == DayNumber(b)
    ensures a == b
  {
    if a.year < b.year { YearOrder(a, b); }
    if b.year < a.year { YearOrder(b, a); }
    if a.month < b.month {
      BeforeMonthGrows(a.year, a.month, b.month);
    } else if b.month < a.month {
      BeforeMonthGrows(a.year, b.month, a.month);
    }
  }

  lemma WithinYear(d: Date)
    requires ValidDate(d)
    ensures DayNumber(d) < DaysBeforeYear(d.year) + YearLength(d.year)
  {
    BeforeMonthGrows(d.year, d.month, 13);
    MonthsMakeYear(d.year);
  }

  lemma YearOrder(a: Date, b: Date)
    requires ValidDate(a) && ValidDate(b) && a.year < b.year
    ensures DayNumber(a) < DayNumber(b)
  {
    BeforeYearGrows(a.year, b.year);
    WithinYear(a);
  }

  // ---- Walking the calendar day by day

  function Tomorrow(d: Date): (r: Date)
    requires ValidDate(d)
    ensures ValidDate(r)
  {
    if d.day < MonthLength(d.year, d.month) then d.(day := d.day + 1)
    else if d.month < 12 then Date(d.year, d.month + 1, 1)
    else Date(d.year + 1, 1, 1)
  }

  lemma TomorrowIsNext(d: Date)
    requires ValidDate(d)
    ensures DayNumber(Tomorrow(d)) == DayNumber(d) + 1
  {
    MonthsMakeYear(d.year);
    assert DaysBeforeMonth(d.year, d.month + 1) == DaysBeforeMonth(d.year, d.month) + MonthLength(d.year, d.month);
    assert DaysBeforeMonth(d.year + 1, 1) == 0;
  }

  /** The date n days after 1 January 1970. */
  ghost function DateOf(n: nat): (d: Date)
    ensures ValidDate(d)
  {
    if n == 0 then Date(1970, 1, 1) else Tomorrow(DateOf(n - 1))
  }

  lemma {:induction false} DateOfNumber(n: nat)
    ensures DayNumber(DateOf(n)) == n
  {
    if n > 0 {
      DateOfNumber(n - 1);
      TomorrowIsNext(DateOf(n - 1));
    }
  }

  // ---- The conversion

  /** Days of y years, the leap days among them counted. */
  function YearToDays(y: nat): int { y * 365 + y / 4 - y / 100 + y / 400 }

  lemma Quarters(y: nat)
    ensures (y + 1) / 4 == y / 4 + (if (y + 1) % 4 == 0 then 1 else 0)
  {
  }

  lemma Centuries(y: nat)
    ensures (y + 1) / 100 == y / 100 + (if (y + 1) % 100 == 0 then 1 else 0)
  {
  }

  lemma Cycles(y: nat)
    ensures (y + 1) / 400 == y / 400 + (if (y + 1) % 400 == 0 then 1 else 0)
  {
  }

  lemma Nested(y: nat)
    ensures y % 400 == 0 ==> y % 100 == 0
    ensures y % 100 == 0 ==> y % 4 == 0
  {
    if y % 400 == 0 { DivModUnique(y, 100, 4 * (y / 400), 0); }
    if y % 100 == 0 { DivModUnique(y, 4, 25 * (y / 100), 0); }
  }

  /** The step from one year to the next counts the leap day of the year reached. */
  lemma YearToDaysStep(y: nat)
    ensures YearToDays(y + 1) == YearToDays(y) + YearLength(y + 1)
  {
    Quarters(y);
    Centuries(y);
    Cycles(y);
    Nested(y + 1);
  }

  /** Rebased by 719499 days, 1 January of a year is 337 days into the year that began in March before it. */
  lemma {:induction false} January(y: nat)
    requires y >= 1970
    ensures DaysBeforeYear(y) + 719499 == YearToDays(y - 1) + 337
  {
    if y > 1970 {
      January(y - 1);
      YearToDaysStep(y - 2);
      YearToDaysStep(y - 1);
    }
  }

  /** Four hundred years have 146097 days, wherever they begin. */
  lemma FourCenturies(y: nat)
    requires y >= 1970
    ensures DaysBeforeYear(y + 400) == DaysBeforeYear(y) + 146097
  {
    January(y);
    January(y + 400);
    var z := y - 1;
    assert (z + 400) / 4 == z / 4 + 100 && (z + 400) / 100 == z / 100 + 4 && (z + 400) / 400 == z / 400 + 1;
  }

  lemma FirstOfMarch(y: nat)
    requires y >= 1970
    ensures DayNumber(Date(y, 3, 1)) == YearToDays(y - 1) - 719162 + (if Leap(y) then 60 else 59)
  {
    hide YearToDays, Leap;
    January(y);
    MonthsMakeYear(y);
  }

  /** Leap days where the Gregorian calendar has them: in 2000 and 2024, not in 2023 or 2100. */
  lemma KnownDays()
    ensures ValidDate(Date(2000, 2, 29)) && DayNumber(Date(2000, 3, 1)) == 11017
    ensures ValidDate(Date(2024, 2, 29)) && DayNumber(Date(2024, 3, 1)) == 19783
    ensures !ValidDate(Date(2023, 2, 29)) && DayNumber(Date(2023, 3, 1)) == 19417
    ensures !ValidDate(Date(2100, 2, 29)) && DayNumber(Date(2100, 3, 1)) == 47541
  {
    hide DayNumber;
    FirstOfMarch(2000);
    FirstOfMarch(2024);
    FirstOfMarch(2023);
    FirstOfMarch(2100);
  }

  /** Months counted from March: m = 1 is March, m = 12 is February of the next year. */
  function MonthStart(m: nat): nat { 367 * m / 12 }

  /** The date that the two search loops lead to. */
  function Found(year: nat, month: nat, rest: nat): Date {
    if month + 2 > 12 then Date(year + 1, month - 10, rest) else Date(year, month + 2, rest)
  }

  lemma MonthStarts()
    ensures MonthStart(1) == 30 && MonthStart(2) == 61 && MonthStart(3) == 91 && MonthStart(4) == 122
    ensures MonthStart(5) == 152 && MonthStart(6) == 183 && MonthStart(7) == 214 && MonthStart(8) == 244
    ensures MonthStart(9) == 275 && MonthStart(10) == 305 && MonthStart(11) == 336 && MonthStart(12) == 367
  {
  }

  /** rest days into month of the year from March on, and inside it. */
  predicate Reached(n: nat, year: nat, month: nat, rest: nat) {
    && year >= 1969 && 1 <= month <= 12
    && YearToDays(year) + 30 < n + 719499 <= YearToDays(year + 1) + 30
    && n + 719499 == YearToDays(year) + MonthStart(month) + rest
    && rest > 0 && (month < 12 ==> rest <= MonthStart(month + 1) - MonthStart(month))
  }

  lemma FoundFromMarch(n: nat, year: nat, month: nat, rest: nat)
    requires Reached(n, year, month, rest) && month <= 10 && year >= 1970
    ensures ValidDate(Found(year, month, rest)) && DayNumber(Found(year, month, rest)) == n
  {
    MonthStarts();
    January(year);
    MonthsMakeYear(year);
    YearToDaysStep(year - 1);
    hide YearToDays, MonthStart, DaysBeforeMonth, DaysBeforeYear, Leap;
  }

  lemma FoundInWinter(n: nat, year: nat, month: nat, rest: nat)
    requires Reached(n, year, month, rest) && month >= 11
    ensures ValidDate(Found(year, month, rest)) && DayNumber(Found(year, month, rest)) == n
  {
    MonthStarts();
    January(year + 1);
    MonthsMakeYear(year + 1);
    YearToDaysStep(year);
    hide YearToDays, MonthStart, DaysBeforeMonth, DaysBeforeYear, Leap;
  }

  lemma NotBefore1970(n: nat, month: nat, rest: nat)
    requires Reached(n, 1969, month, rest)
    ensures month >= 11
  {
    MonthStarts();
    hide MonthStart;
  }

  /** The right year and month were found: then the date is valid and its day number is the one looked for. */
  lemma FoundIsRight(n: nat, year: nat, month: nat, rest: nat)
    requires Reached(n, year, month, rest)
    ensures Found(year, month, rest) == DateOf(n)
  {
    hide DayNumber, YearToDays, MonthStart;
    if year == 1969 { NotBefore1970(n, month, rest); }
    if month <= 10 { FoundFromMarch(n, year, month, rest); } else { FoundInWinter(n, year, month, rest); }
    DateOfNumber(n);
    DayNumberInjective(DateOf(n), Found(year, month, rest));
  }

  /** Sexagesimal digits put together again. */
  lemma Recomposed(seconds: nat, n: nat, hour: nat, minute: nat, second: nat)
    requires second == seconds % 60 && minute == (seconds / 60) % 60 && hour == (seconds / 60 / 60) % 24
    requires n == seconds / 60 / 60 / 24
    ensures n == seconds / 86400 && n * 86400 + hour * 3600 + minute * 60 + second == seconds
  {
  }

  /** The last day of the year from March on, in 32 bits. */
  function YearEnd(year: nat): int { (YearToDays(year + 1) + 30) % U32 }

  /** The comparison in 32 bits does not wrap where the method is used. */
  lemma NoWrap(year: nat, rest: nat)
    requires year >= 1969 && YearToDays(year) + 30 < rest <= LAST_DAY
    ensures YearEnd(year) == YearToDays(year + 1) + 30 && YearToDays(year) < YearToDays(year + 1)
  {
    LastYear();
    YearToDaysStep(year);
    hide YearToDays;
    if year >= LAST_YEAR { YearToDaysGrows(LAST_YEAR, year); }
    YearToDaysGrows(year + 1, LAST_YEAR);
  }

  /** The last year whose days the 32-bit comparison can express, and its last day. */
  const LAST_YEAR: nat := 11759220
  const LAST_DAY: nat := 4294966941

  lemma LastYear()
    ensures YearToDays(LAST_YEAR) + 30 == LAST_DAY && YearToDays(LAST_YEAR + 1) + 30 == U32 + 10
  {
  }

  lemma {:induction false} YearToDaysGrows(y: nat, z: nat)
    requires y <= z
    ensures 0 <= YearToDays(y) <= YearToDays(z)
    decreases z
  {
    if y < z {
      YearToDaysGrows(y, z - 1);
      YearToDaysStep(z - 1);
    }
  }

  /** The year search stops at year. */
  ghost predicate StopsAt(rest: nat, year: nat) {
    year >= 1969 && rest <= YearEnd(year) && forall y :: 1969 <= y < year ==> rest > YearEnd(y)
  }

  /** The search stops at the right year exactly up to the last day of the year 11759219 counted from March. */
  lemma SearchIsRightIff(rest: nat, year: nat)
    requires year >= 1969 && YearToDays(year) + 30 < rest <= YearToDays(year + 1) + 30
    ensures StopsAt(rest, year) <==> rest <= LAST_DAY
  {
    hide YearToDays, YearEnd;
    LastYear();
    if rest <= LAST_DAY {
      NoWrap(year, rest);
      forall y | 1969 <= y < year ensures rest > YearEnd(y) {
        YearToDaysGrows(y, year);
        YearToDaysGrows(y + 1, year);
        NoWrap(y, rest);
      }
    } else {
      if year < LAST_YEAR { YearToDaysGrows(year + 1, LAST_YEAR); }
      if year > LAST_YEAR { YearToDaysGrows(LAST_YEAR + 1, year); }
      EndIsBelow(year);
    }
  }

  lemma EndIsBelow(year: nat)
    ensures YearEnd(year) < U32 && (year == LAST_YEAR ==> YearEnd(year) == 10)
  {
    LastYear();
  }

  /** From day number 2^32 on the search never stops: its test succeeds for every year. */
  lemma SearchNeverStops(rest: nat, year: nat)
    requires rest >= U32
    ensures rest > YearEnd(year)
  {
    hide YearEnd;
    EndIsBelow(year);
  }

  lemma Year1969()
    ensures YearToDays(1969) == 719162
  {
  }

  /** What is stored: the year in 16 bits. */
  ghost function Stored(n: nat): Date { DateOf(n).(year := DateOf(n).year % 65536) }

  /** What the conversion of a second count stores: its date, the year in 16 bits, and its time of day. */
  ghost predicate IsConversion(seconds: nat, d: Date, t: Time) {
    d == Stored(seconds / 86400) && ValidTime(t) && SecondsOf(DateOf(seconds / 86400), t) == seconds
  }

  /** Take the time of day off; days remain. */
  method SplitTime(seconds: nat) returns (n: nat, hour: nat, minute: nat, second: nat)
    ensures n == seconds / 86400 && ValidTime(Time(hour, minute, second))
    ensures SecondsOf(DateOf(n), Time(hour, minute, second)) == seconds
  {
    var rest := seconds;
    second := rest % 60;
    rest := rest / 60;
    minute := rest % 60;
    rest := rest / 60;
    hour := rest % 24;
    rest := rest / 24;
    n := rest;
    Recomposed(seconds, n, hour, minute, second);
    DateOfNumber(n);
  }

  method ConvertUtcToCalendar(seconds: nat)
    returns (calYear: nat, calMonth: nat, calDay: nat, hour: nat, minute: nat, second: nat)
    requires seconds / 86400 + 719499 <= LAST_DAY
    ensures IsConversion(seconds, Date(calYear, calMonth, calDay), Time(hour, minute, second))
  {
    hide YearToDays, YearEnd, DayNumber, DateOf, ValidDate, MonthStart, SecondsOf;
    var n;
    n, hour, minute, second := SplitTime(seconds);

    var rest := n + 719499;
    var year := 1969;
    Year1969();
    NoWrap(year, rest);
    while rest > YearEnd(year)
      invariant year >= 1969 && YearToDays(year) + 30 < rest == n + 719499
      decreases rest - YearToDays(year)
    {
      NoWrap(year, rest);
      year := year + 1;
    }
    NoWrap(year, rest);
    rest := rest - YearToDays(year);
    var month := 1;
    MonthStarts();
    while month < 12 && rest > MonthStart(month + 1)
      invariant 1 <= month <= 12 && rest > MonthStart(month)
      decreases 12 - month
    {
      month := month + 1;
    }
    rest := rest - MonthStart(month);
    FoundIsRight(n, year, month, rest);

    month := month + 2;
    if month > 12 {
      month := month - 12;
      year := year + 1;
    }
    calYear, calMonth, calDay := year % 65536, month, rest;
  }

  // ---- What the caller gets

  /** The stored date is right exactly for days before the year 65536. */
  lemma StoredIsExactIff(n: nat)
    ensures (ValidDate(Stored(n)) && DayNumber(Stored(n)) == n) <==> n < DaysBeforeYear(65536)
  {
    hide DaysBeforeYear, DateOf, MonthLength, DaysBeforeMonth;
    DateOfNumber(n);
    var d := DateOf(n);
    if d.year < 65536 {
      BeforeYearGrows(d.year, 65536);
      WithinYear(d);
    } else {
      if d.year > 65536 { BeforeYearGrows(65536, d.year); }
      if ValidDate(Stored(n)) { YearOrder(Stored(n), d); }
    }
  }

  /** Different seconds before the year 65536 are converted to different dates or times. */
  lemma ConversionInjective(s1: nat, s2: nat, d: Date, t: Time)
    requires IsConversion(s1, d, t) && IsConversion(s2, d, t)
    requires s1 / 86400 < DaysBeforeYear(65536) && s2 / 86400 < DaysBeforeYear(65536)
    ensures s1 == s2
  {
    hide DaysBeforeYear, DateOf, ValidDate, DayNumber;
    StoredIsExactIff(s1 / 86400);
    StoredIsExactIff(s2 / 86400);
    DateOfNumber(s1 / 86400);
    DateOfNumber(s2 / 86400);
  }

  /** Before the year 65536 the stored date is a Gregorian date, and with the time it gives back the input. */
  lemma ConversionIsExact(seconds: nat, d: Date, t: Time)
    requires IsConversion(seconds, d, t) && seconds / 86400 < DaysBeforeYear(65536)
    ensures ValidDate(d) && SecondsOf(d, t) == seconds
  {
    hide DaysBeforeYear, DateOf, ValidDate, DayNumber;
    StoredIsExactIff(seconds / 86400);
    DateOfNumber(seconds / 86400);
  }

  /** Every valid date and time is what its number of seconds is converted to. */
  lemma EveryDateIsReached(d: Date, t: Time)
    requires ValidDate(d) && ValidTime(t)
    ensures IsConversion(SecondsOf(d, t), d.(year := d.year % 65536), t)
  {
    var s := SecondsOf(d, t);
    var n := DayNumber(d);
    assert s / 86400 == n;
    DateOfNumber(n);
    DayNumberInjective(DateOf(n), d);
  }
}
