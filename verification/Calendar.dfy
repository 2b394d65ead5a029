/**
 The date arithmetic behind every `observed_at` field: days since 1970-01-01
 to a proleptic Gregorian date without a table, and the RFC 3339 timestamp
 built on it.

 The partner of the table-free arithmetic is a day count that knows only the
 leap rule and the lengths of the months.
 */
module Calendar {
  import opened Common

  datatype Civil = Civil(year: int, month: int, day: int)

  // -------------------------------------------------------------------------
  // The calendar, from its rules
  // -------------------------------------------------------------------------

  predicate IsLeap(year: int) {
    year % 4 == 0 && (year % 100 != 0 || year % 400 == 0)
  }

  function YearLength(year: int): int {
    if IsLeap(year) then 366 else 365
  }

  function MonthLength(year: int, month: int): int {
    if month == 2 then (if IsLeap(year) then 29 else 28)
    else if month in {4, 6, 9, 11} then 30
    else 31
  }

  predicate ValidDate(c: Civil) {
    && 1 <= c.month <= 12
    && 1 <= c.day <= MonthLength(c.year, c.month)
  }

  // Days from 1970-01-01 to the first of January of `year`, year by year.
  function YearStart(year: int): int
    decreases if year >= 1970 then year - 1970 else 1970 - year
  {
    if year == 1970 then 0
    else if year > 1970 then YearStart(year - 1) + YearLength(year - 1)
    else YearStart(year + 1) - YearLength(year)
  }

  // Days from the first of January to the first of `month`, month by month.
  function MonthStart(year: int, month: int): int
    requires 1 <= month <= 12
    decreases month
  {
    if month == 1 then 0 else MonthStart(year, month - 1) + MonthLength(year, month - 1)
  }

  function DaysFromCivil(c: Civil): int
    requires ValidDate(c)
  {
    YearStart(c.year) + MonthStart(c.year, c.month) + c.day - 1
  }

  function NextDate(c: Civil): Civil {
    if c.day < MonthLength(c.year, c.month) then c.(day := c.day + 1)
    else if c.month < 12 then Civil(c.year, c.month + 1, 1)
    else Civil(c.year + 1, 1, 1)
  }

  // -------------------------------------------------------------------------
  // The program's arithmetic
  // -------------------------------------------------------------------------

  function YearOfEra(dayOfEra: int): int {
    (dayOfEra - dayOfEra / 1460 + dayOfEra / 36524 - dayOfEra / 146096) / 365
  }

  function CivilFromDays(days: int): Civil {
    var shifted := days + 719468;
    var era := shifted / 146097;
    var dayOfEra := shifted % 146097;
    var yearOfEra := YearOfEra(dayOfEra);
    var dayOfYear := dayOfEra - (365 * yearOfEra + yearOfEra / 4 - yearOfEra / 100);
    var monthIndex := (5 * dayOfYear + 2) / 153;
    var day := dayOfYear - (153 * monthIndex + 2) / 5 + 1;
    var month := if monthIndex < 10 then monthIndex + 3 else monthIndex - 9;
    Civil(yearOfEra + era * 400 + (if month <= 2 then 1 else 0), month, day)
  }

  // -------------------------------------------------------------------------
  // Closed forms of the rule-based count
  // -------------------------------------------------------------------------

  // Leap years in the years 1..year, extended to every integer.
  function LeapYears(year: int): int {
    year / 4 - year / 100 + year / 400
  }

  lemma DivStep(n: int, k: int)
    requires k > 1
    ensures n / k == (n - 1) / k + (if n % k == 0 then 1 else 0)
  {
    var q, r := n / k, n % k;
    assert n == k * q + r;
    if r == 0 {
      assert n - 1 == k * (q - 1) + (k - 1);
      DivModUnique(n - 1, k, q - 1, k - 1);
    } else {
      assert n - 1 == k * q + (r - 1);
      DivModUnique(n - 1, k, q, r - 1);
    }
  }

  lemma LeapYearsStep(year: int)
    ensures LeapYears(year) == LeapYears(year - 1) + (if IsLeap(year) then 1 else 0)
  {
    DivStep(year, 4);
    DivStep(year, 100);
    DivStep(year, 400);
    if year % 400 == 0 { DivModUnique(year, 100, 4 * (year / 400), 0); }
    if year % 100 == 0 { DivModUnique(year, 4, 25 * (year / 100), 0); }
  }

  lemma {:induction false} YearStartClosedForm(year: int)
    ensures YearStart(year) == 365 * (year - 1970) + LeapYears(year - 1) - 477
    decreases if year >= 1970 then year - 1970 else 1970 - year
  {
    if year > 1970 {
      YearStartClosedForm(year - 1);
      LeapYearsStep(year - 1);
    } else if year < 1970 {
      YearStartClosedForm(year + 1);
      LeapYearsStep(year);
    }
  }

  // Days from the first of March, for the months of a year that starts there.
  lemma MonthStartFromMarch(year: int, month: int)
    requires 1 <= month <= 12
    ensures month >= 3 ==>
      MonthStart(year, month) == (153 * (month - 3) + 2) / 5 + 59 + (if IsLeap(year) then 1 else 0)
    ensures month <= 2 ==> MonthStart(year, month) == (153 * (month + 9) + 2) / 5 - 306
  {
    assert MonthStart(year, 1) == 0;
    assert MonthStart(year, 2) == 31;
    assert MonthStart(year, 3) == 59 + (if IsLeap(year) then 1 else 0);
    assert MonthStart(year, 4) == MonthStart(year, 3) + 31;
    assert MonthStart(year, 5) == MonthStart(year, 4) + 30;
    assert MonthStart(year, 6) == MonthStart(year, 5) + 31;
    assert MonthStart(year, 7) == MonthStart(year, 6) + 30;
    assert MonthStart(year, 8) == MonthStart(year, 7) + 31;
    assert MonthStart(year, 9) == MonthStart(year, 8) + 31;
    assert MonthStart(year, 10) == MonthStart(year, 9) + 30;
    assert MonthStart(year, 11) == MonthStart(year, 10) + 31;
    assert MonthStart(year, 12) == MonthStart(year, 11) + 30;
  }

  // -------------------------------------------------------------------------
  // The 400-year cycle, counted from the first of March of its year 0
  // -------------------------------------------------------------------------

  // A year of the cycle split into century, four-year group and year, with
  // the day inside it. The last day of a year exists only when the following
  // February has 29 days.
  predicate CycleDay(century: int, group: int, year: int, dayOfYear: int) {
    && 0 <= century < 4 && 0 <= group < 25 && 0 <= year < 4
    && 0 <= dayOfYear <= 365
    && (dayOfYear == 365 ==> year == 3 && (group < 24 || century == 3))
  }

  lemma CycleDayOf(dayOfEra: int) returns (century: int, group: int, year: int, dayOfYear: int)
    requires 0 <= dayOfEra < 146097
    ensures CycleDay(century, group, year, dayOfYear)
    ensures dayOfEra == 36524 * century + 1461 * group + 365 * year + dayOfYear
  {
    century := if dayOfEra == 146096 then 3 else dayOfEra / 36524;
    var inCentury := dayOfEra - 36524 * century;
    group := inCentury / 1461;
    var inGroup := inCentury - 1461 * group;
    year := if inGroup == 1460 then 3 else inGroup / 365;
    dayOfYear := inGroup - 365 * year;
  }

  lemma YearOfEraIsCycleYear(century: int, group: int, year: int, dayOfYear: int)
    requires CycleDay(century, group, year, dayOfYear)
    ensures YearOfEra(36524 * century + 1461 * group + 365 * year + dayOfYear)
         == 100 * century + 4 * group + year
  {
    var doe := 36524 * century + 1461 * group + 365 * year + dayOfYear;
    var within := 1461 * group + 365 * year + dayOfYear;
    assert within <= 36524;
    assert within == 36524 ==> century == 3;
    if doe == 146096 {
    } else {
      assert doe / 36524 == century && doe / 146096 == 0;
      var y := 100 * century + 4 * group + year;
      // `doe - doe/1460 + century` lies in the 365 days of year `y`.
      var fours := doe / 1460;
      assert 25 * century + group - 1 <= fours <= 25 * century + group + 1;
      assert 365 * y <= doe - fours + century < 365 * y + 365;
    }
  }

  lemma YearOfCycleParts(century: int, group: int, year: int)
    requires 0 <= century < 4 && 0 <= group < 25 && 0 <= year < 4
    ensures var y := 100 * century + 4 * group + year;
            365 * y + y / 4 - y / 100 == 36524 * century + 1461 * group + 365 * year
  {
  }

  // -------------------------------------------------------------------------
  // Correctness of the table-free arithmetic
  // -------------------------------------------------------------------------

  // A month's days start at (153m + 2) / 5 in the year that begins in March,
  // and the program inverts exactly that.
  lemma MonthIndexInverts(dayOfYear: int, year: int)
    requires 0 <= dayOfYear <= 365
    requires dayOfYear == 365 ==> IsLeap(year + 1)
    ensures ValidDate(MarchDate(year, dayOfYear))
  {
  }

  lemma {:induction false} CivilFromDaysInverse(days: int)
    ensures ValidDate(CivilFromDays(days))
    ensures DaysFromCivil(CivilFromDays(days)) == days
  {
    var shifted := days + 719468;
    var era := shifted / 146097;
    var century, group, y4, dayOfYear := CycleDayOf(shifted % 146097);
    CivilFromCycle(days, era, century, group, y4, dayOfYear);
    MarchYear(era, century, group, y4, dayOfYear);
    MonthIndexInverts(dayOfYear, 100 * century + 4 * group + y4 + 400 * era);
    MarchDateCount(era, century, group, y4, dayOfYear);
  }

  // The date `dayOfYear` days after the first of March of `year`.
  function MarchDate(year: int, dayOfYear: int): Civil {
    var m := (5 * dayOfYear + 2) / 153;
    var month := if m < 10 then m + 3 else m - 9;
    Civil(if month <= 2 then year + 1 else year, month, dayOfYear - (153 * m + 2) / 5 + 1)
  }

  lemma CivilFromCycle(days: int, era: int, century: int, group: int, y4: int, dayOfYear: int)
    requires CycleDay(century, group, y4, dayOfYear)
    requires era == (days + 719468) / 146097
    requires (days + 719468) % 146097 == 36524 * century + 1461 * group + 365 * y4 + dayOfYear
    ensures CivilFromDays(days) == MarchDate(100 * century + 4 * group + y4 + 400 * era, dayOfYear)
  {
    YearOfEraIsCycleYear(century, group, y4, dayOfYear);
    YearOfCycleParts(century, group, y4);
    CivilFromYear(days, era, (days + 719468) % 146097, 100 * century + 4 * group + y4, dayOfYear);
  }

  lemma CivilFromYear(days: int, era: int, dayOfEra: int, yearOfEra: int, dayOfYear: int)
    requires era == (days + 719468) / 146097 && dayOfEra == (days + 719468) % 146097
    requires yearOfEra == YearOfEra(dayOfEra)
    requires dayOfYear == dayOfEra - (365 * yearOfEra + yearOfEra / 4 - yearOfEra / 100)
    ensures CivilFromDays(days) == MarchDate(yearOfEra + 400 * era, dayOfYear)
  {
  }

  lemma MarchDateCount(era: int, century: int, group: int, y4: int, dayOfYear: int)
    requires CycleDay(century, group, y4, dayOfYear)
    requires ValidDate(MarchDate(100 * century + 4 * group + y4 + 400 * era, dayOfYear))
    ensures DaysFromCivil(MarchDate(100 * century + 4 * group + y4 + 400 * era, dayOfYear))
         == 146097 * era + 36524 * century + 1461 * group + 365 * y4 + dayOfYear - 719468
  {
    var c := MarchDate(100 * century + 4 * group + y4 + 400 * era, dayOfYear);
    MonthStartFromMarch(c.year, c.month);
    MarchCount(era, century, group, y4);
  }

  // The last day of a cycle year is the 29th of a February that exists.
  lemma MarchYear(era: int, century: int, group: int, y4: int, dayOfYear: int)
    requires CycleDay(century, group, y4, dayOfYear)
    ensures dayOfYear == 365 ==> IsLeap(100 * century + 4 * group + y4 + 400 * era + 1)
  {
    if dayOfYear == 365 {
      var next := 100 * century + 4 * (group + 1) + 400 * era;
      assert next == 4 * (25 * century + group + 1 + 100 * era);
      if group < 24 {
        assert next == 100 * (century + 4 * era) + 4 * (group + 1);
      } else {
        assert next == 400 * (era + 1);
      }
    }
  }

  // The closed form, evaluated at the first of March of a cycle year.
  lemma MarchCount(era: int, century: int, group: int, y4: int)
    requires 0 <= century < 4 && 0 <= group < 25 && 0 <= y4 < 4
    ensures var year := 100 * century + 4 * group + y4 + 400 * era;
            && YearStart(year) + 59 + (if IsLeap(year) then 1 else 0)
               == 146097 * era + 36524 * century + 1461 * group + 365 * y4 - 719468
            && YearStart(year + 1) - 306
               == 146097 * era + 36524 * century + 1461 * group + 365 * y4 - 719468
  {
    var year := 100 * century + 4 * group + y4 + 400 * era;
    YearStartClosedForm(year);
    YearStartClosedForm(year + 1);
    assert year / 4 == 25 * century + group + 100 * era;
    assert year / 100 == century + 4 * era by {
      assert year == 100 * (century + 4 * era) + (4 * group + y4);
    }
    assert year / 400 == era by { assert year == 400 * era + (100 * century + 4 * group + y4); }
    assert YearStart(year + 1) == YearStart(year) + YearLength(year) by { YearStartStep(year); }
  }

  lemma YearStartStep(year: int)
    ensures YearStart(year + 1) == YearStart(year) + YearLength(year)
  {
  }

  // -------------------------------------------------------------------------
  // Order: the count grows with the date, so the inverse is two-sided
  // -------------------------------------------------------------------------

  lemma NextDateIsNextDay(c: Civil)
    requires ValidDate(c)
    ensures ValidDate(NextDate(c))
    ensures DaysFromCivil(NextDate(c)) == DaysFromCivil(c) + 1
  {
    YearStartStep(c.year);
    assert MonthStart(c.year, 12) == YearLength(c.year) - 31 by { MonthStartFromMarch(c.year, 12); }
  }

  lemma {:induction false} YearStartMonotone(a: int, b: int)
    requires a <= b
    ensures YearStart(a) + 365 * (b - a) <= YearStart(b)
    decreases b - a
  {
    if a < b {
      YearStartMonotone(a, b - 1);
      YearStartStep(b - 1);
    }
  }

  lemma DayOfYearBound(c: Civil)
    requires ValidDate(c)
    ensures 0 <= MonthStart(c.year, c.month) + c.day - 1 < YearLength(c.year)
  {
    MonthStartFromMarch(c.year, c.month);
  }

  lemma EarlierYearCountsLess(a: Civil, b: Civil)
    requires ValidDate(a) && ValidDate(b) && a.year < b.year
    ensures DaysFromCivil(a) < DaysFromCivil(b)
  {
    DayOfYearBound(a);
    DayOfYearBound(b);
    YearStartMonotone(a.year + 1, b.year);
    YearStartStep(a.year);
  }

  lemma {:induction false} MonthStartMonotone(year: int, a: int, b: int)
    requires 1 <= a < b <= 12
    ensures MonthStart(year, a) + MonthLength(year, a) <= MonthStart(year, b)
    decreases b
  {
    if a < b - 1 {
      MonthStartMonotone(year, a, b - 1);
    }
  }

  lemma DaysFromCivilInjective(a: Civil, b: Civil)
    requires ValidDate(a) && ValidDate(b)
    requires DaysFromCivil(a) == DaysFromCivil(b)
    ensures a == b
  {
    if a.year != b.year {
      if a.year < b.year { EarlierYearCountsLess(a, b); } else { EarlierYearCountsLess(b, a); }
    } else if a.month < b.month {
      MonthStartMonotone(a.year, a.month, b.month);
    } else if b.month < a.month {
      MonthStartMonotone(a.year, b.month, a.month);
    }
  }

  lemma DaysFromCivilInverse(c: Civil)
    requires ValidDate(c)
    ensures CivilFromDays(DaysFromCivil(c)) == c
  {
    CivilFromDaysInverse(DaysFromCivil(c));
    DaysFromCivilInjective(CivilFromDays(DaysFromCivil(c)), c);
  }

  lemma CivilFromDaysSteps(days: int)
    ensures CivilFromDays(days + 1) == NextDate(CivilFromDays(days))
  {
    CivilFromDaysInverse(days);
    CivilFromDaysInverse(days + 1);
    NextDateIsNextDay(CivilFromDays(days));
    DaysFromCivilInjective(CivilFromDays(days + 1), NextDate(CivilFromDays(days)));
  }
}
