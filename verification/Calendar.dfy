/**
  Day arithmetic of the ECMAScript Date object (section 21.4.1 of ECMA-262), on unbounded integers.

  A day is the number of days since 1970-01-01. A month is also one integer, twelve per year counted from
  January of year 0, because every recurrence in the program walks over months and only then picks a day.
*/
module Calendar {
  import opened Prelude

  const MS_PER_DAY := 86_400_000
  const MS_PER_HOUR := 3_600_000
  /** January 1970 as a month index. */
  const EPOCH_MONTH := 23640

  predicate IsLeap(y: int) {
    y % 4 == 0 && (y % 100 != 0 || y % 400 == 0)
  }

  /** The day number of 1 January: the lengths of the years since 1970 added up. */
  function DayFromYear(y: int): int
    decreases if y > 1970 then y - 1970 else 1970 - y
  {
    if y == 1970 then 0
    else if y > 1970 then DayFromYear(y - 1) + DaysInYear(y - 1)
    else DayFromYear(y + 1) - DaysInYear(y)
  }

  function Fours(y: int): int {
    (y - 1969) / 4
  }

  function Hundreds(y: int): int {
    (y - 1901) / 100
  }

  function FourHundreds(y: int): int {
    (y - 1601) / 400
  }

  function DaysInYear(y: int): int {
    if IsLeap(y) then 366 else 365
  }

  lemma FoursNext(y: int)
    ensures Fours(y + 1) == Fours(y) + if y % 4 == 0 then 1 else 0
  {
  }

  lemma HundredsNext(y: int)
    ensures Hundreds(y + 1) == Hundreds(y) + if y % 100 == 0 then 1 else 0
  {
  }

  lemma FourHundredsNext(y: int)
    ensures FourHundreds(y + 1) == FourHundreds(y) + if y % 400 == 0 then 1 else 0
  {
  }

  lemma CenturiesAreMultiplesOfFour(y: int)
    ensures y % 100 == 0 ==> y % 4 == 0
    ensures y % 400 == 0 ==> y % 100 == 0
  {
    if y % 100 == 0 {
      assert y == 4 * (25 * (y / 100));
    }
    if y % 400 == 0 {
      assert y == 100 * (4 * (y / 400));
    }
  }

  lemma {:induction false} DayFromYearNext(y: int)
    ensures DayFromYear(y + 1) == DayFromYear(y) + DaysInYear(y)
  {
  }

  function YearFormula(y: int): int {
    365 * (y - 1970) + Fours(y) - Hundreds(y) + FourHundreds(y)
  }

  lemma FormulaNext(y: int)
    ensures YearFormula(y + 1) == YearFormula(y) + DaysInYear(y)
  {
    hide Fours, Hundreds, FourHundreds;
    FoursNext(y);
    HundredsNext(y);
    FourHundredsNext(y);
    CenturiesAreMultiplesOfFour(y);
  }

  /** Section 21.4.1.3 of ECMA-262 gives the same number in closed form. */
  lemma {:induction false} DayFromYearFormula(y: int)
    ensures DayFromYear(y) == YearFormula(y)
    decreases if y > 1970 then y - 1970 else 1970 - y
  {
    if y > 1970 {
      DayFromYearFormula(y - 1);
      FormulaNext(y - 1);
    } else if y < 1970 {
      DayFromYearFormula(y + 1);
      FormulaNext(y);
    } else {
      assert Fours(1970) == 0 && Hundreds(1970) == 0 && FourHundreds(1970) == 0;
    }
  }

  function MonthLength(leap: bool, m: int): int {
    if m == 1 then (if leap then 29 else 28)
    else if m == 3 || m == 5 || m == 8 || m == 10 then 30
    else 31
  }

  /** Days before the first of month `m` (0 is January) within its year. */
  function MonthOffset(leap: bool, m: int): int
    requires 0 <= m <= 12
  {
    if m == 0 then 0 else MonthOffset(leap, m - 1) + MonthLength(leap, m - 1)
  }

  lemma MonthsMakeTheYear(y: int)
    ensures MonthOffset(IsLeap(y), 12) == DaysInYear(y)
  {
    hide IsLeap;
    var leap := IsLeap(y);
    assert MonthOffset(leap, 2) == MonthOffset(leap, 1) + if leap then 29 else 28;
    assert MonthOffset(leap, 4) == MonthOffset(leap, 3) + 30 == MonthOffset(leap, 2) + 61;
    assert MonthOffset(leap, 6) == MonthOffset(leap, 5) + 30 == MonthOffset(leap, 4) + 61;
    assert MonthOffset(leap, 8) == MonthOffset(leap, 7) + 31 == MonthOffset(leap, 6) + 62;
    assert MonthOffset(leap, 10) == MonthOffset(leap, 9) + 31 == MonthOffset(leap, 8) + 61;
    assert MonthOffset(leap, 12) == MonthOffset(leap, 11) + 31 == MonthOffset(leap, 10) + 61;
  }

  /** The first day of a month. */
  function First(month: int): int {
    DayFromYear(month / 12) + MonthOffset(IsLeap(month / 12), month % 12)
  }

  /** Section 21.4.1.13 of ECMA-262, MakeDay: any month and day number, with carry into the year. */
  function MakeDay(y: int, m: int, d: int): int {
    First(12 * y + m) + d - 1
  }

  /** Date.UTC (section 21.4.3.4 of ECMA-262) reads the years 0 to 99 as 1900 to 1999. */
  function FullYear(y: int): int {
    if 0 <= y <= 99 then 1900 + y else y
  }

  function DateUtcDay(y: int, m: int, d: int): int {
    MakeDay(FullYear(y), m, d)
  }

  function Length(month: int): (days: int)
    ensures 28 <= days <= 31
  {
    MonthLength(IsLeap(month / 12), month % 12)
  }

  lemma MakeDayIsMonthDay(y: int, m: int, d: int)
    ensures MakeDay(y, m, d) == First(12 * y + m) + d - 1
  {
  }

  lemma {:induction false} FirstNext(month: int)
    ensures First(month + 1) == First(month) + Length(month)
  {
    hide DayFromYear, IsLeap;
    var y, m := month / 12, month % 12;
    if m == 11 {
      assert (month + 1) / 12 == y + 1 && (month + 1) % 12 == 0;
      DayFromYearNext(y);
      MonthsMakeTheYear(y);
    } else {
      assert (month + 1) / 12 == y && (month + 1) % 12 == m + 1;
    }
  }

  lemma {:induction false} FirstMonotone(a: int, b: int)
    requires a <= b
    ensures First(a) + 28 * (b - a) <= First(b) <= First(a) + 31 * (b - a)
    decreases b - a
  {
    hide First, Length;
    if a < b {
      FirstMonotone(a, b - 1);
      FirstNext(b - 1);
    }
  }

  /** The month a day lies in. */
  function MonthOf(day: int): (month: int)
    ensures First(month) <= day < First(month + 1)
  {
    MonthFrom(EPOCH_MONTH, day)
  }

  /** The search for it, month by month. */
  function MonthFrom(m: int, day: int): (month: int)
    ensures First(month) <= day < First(month + 1)
    decreases Max(0, Max(First(m) - day, day - First(m + 1) + 1))
  {
    hide First, Length;
    FirstNext(m);
    FirstNext(m + 1);
    FirstNext(m - 1);
    if day < First(m) then MonthFrom(m - 1, day)
    else if day >= First(m + 1) then MonthFrom(m + 1, day)
    else m
  }

  lemma {:induction false} MonthOfUnique(day: int, month: int)
    requires First(month) <= day < First(month + 1)
    ensures MonthOf(day) == month
  {
    hide First, Length;
    var found := MonthOf(day);
    if found < month {
      FirstMonotone(found + 1, month);
    } else if month < found {
      FirstMonotone(month + 1, found);
    }
  }

  lemma {:induction false} MonthOfMonotone(a: int, b: int)
    requires a <= b
    ensures MonthOf(a) <= MonthOf(b)
  {
    hide First, Length;
    if MonthOf(b) < MonthOf(a) {
      FirstMonotone(MonthOf(b) + 1, MonthOf(a));
    }
  }

  /** getUTCDate of a day: 1 to 31. */
  function DateOf(day: int): (d: int)
    ensures 1 <= d <= Length(MonthOf(day))
  {
    hide First, Length;
    FirstNext(MonthOf(day));
    day - First(MonthOf(day)) + 1
  }

  datatype Civil = Civil(year: int, month: int, day: int)

  predicate ValidCivil(c: Civil) {
    1 <= c.month <= 12 && 1 <= c.day <= Length(12 * c.year + c.month - 1)
  }

  function DayNumber(c: Civil): int {
    MakeDay(c.year, c.month - 1, c.day)
  }

  function CivilOf(day: int): Civil {
    var month := MonthOf(day);
    Civil(month / 12, month % 12 + 1, DateOf(day))
  }

  /** Valid civil dates and day numbers are in bijection. */
  lemma {:induction false} CivilOfDayNumber(c: Civil)
    requires ValidCivil(c)
    ensures CivilOf(DayNumber(c)) == c
    ensures MonthOf(DayNumber(c)) == 12 * c.year + c.month - 1
  {
    hide First, MakeDay, Length;
    var month := 12 * c.year + c.month - 1;
    MakeDayIsMonthDay(c.year, c.month - 1, c.day);
    FirstNext(month);
    MonthOfUnique(DayNumber(c), month);
  }

  lemma {:induction false} DayNumberOfCivil(day: int)
    ensures ValidCivil(CivilOf(day)) && DayNumber(CivilOf(day)) == day
  {
    hide First, MakeDay, Length;
    var c, month := CivilOf(day), MonthOf(day);
    assert 12 * c.year + c.month - 1 == month;
    MakeDayIsMonthDay(c.year, c.month - 1, c.day);
  }

  predicate CivilLess(a: Civil, b: Civil) {
    a.year < b.year || (a.year == b.year && (a.month < b.month || (a.month == b.month && a.day < b.day)))
  }

  /** Comparing year, month and day in turn compares day numbers. */
  lemma {:induction false} CivilOrder(a: Civil, b: Civil)
    requires ValidCivil(a) && ValidCivil(b)
    ensures CivilLess(a, b) <==> DayNumber(a) < DayNumber(b)
  {
    hide First, MakeDay, Length;
    var ma, mb := 12 * a.year + a.month - 1, 12 * b.year + b.month - 1;
    MakeDayIsMonthDay(a.year, a.month - 1, a.day);
    MakeDayIsMonthDay(b.year, b.month - 1, b.day);
    FirstNext(ma);
    FirstNext(mb);
    if ma < mb {
      FirstMonotone(ma + 1, mb);
    } else if mb < ma {
      FirstMonotone(mb + 1, ma);
    }
  }

  /** `new Date(Date.UTC(y, m + 1, 0)).getUTCDate()`: day 0 of the next month is the last day of this one. */
  function LastDay(y: int, m: int): int {
    DateOf(DateUtcDay(y, m + 1, 0))
  }

  lemma {:induction false} LastDayIsLength(y: int, m: int)
    ensures LastDay(y, m) == Length(12 * FullYear(y) + m)
  {
    hide First, MakeDay, Length;
    var month := 12 * FullYear(y) + m;
    MakeDayIsMonthDay(FullYear(y), m + 1, 0);
    FirstNext(month);
    MonthOfUnique(First(month + 1) - 1, month);
  }

  /** Day `d` of a month, or the month's last day when the month is shorter. */
  function Clamped(month: int, d: int): int {
    First(month) + Min(d, Length(month)) - 1
  }

  /** A clamped day stays in its month, so clamped days grow with the month whatever the day wanted. */
  lemma {:induction false} ClampedInMonth(month: int, d: int)
    requires d >= 1
    ensures First(month) <= Clamped(month, d) < First(month + 1)
    ensures MonthOf(Clamped(month, d)) == month
    ensures DateOf(Clamped(month, d)) == Min(d, Length(month))
  {
    hide First, Length;
    FirstNext(month);
    MonthOfUnique(Clamped(month, d), month);
  }

  lemma {:induction false} ClampedIncreases(a: int, b: int, d: int, e: int)
    requires a < b && d >= 1 && e >= 1
    ensures Clamped(a, d) < Clamped(b, e)
  {
    hide First, Length;
    ClampedInMonth(a, d);
    ClampedInMonth(b, e);
    FirstMonotone(a + 1, b);
  }

  /** Section 21.4.1.2 of ECMA-262: the day an instant in milliseconds falls in. */
  function DayOfTime(t: int): int {
    t / MS_PER_DAY
  }
}
