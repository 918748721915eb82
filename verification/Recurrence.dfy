/**
  The recurrence all due dates come from: an anchor month and day repeated every so many months, the day clamped to
  each month or moved to its end. The occurrence set is defined once, for every number of steps; the search for the
  next due date looks at one or two of them.
*/
module Recurrence {
  import opened Prelude
  import opened Calendar
  import opened CivilText

  /** A cost as the schedules read it; an absent anchor date is None. */
  datatype Cost = Cost(id: string, amount: int, periodMonths: real, anchor: Option<string>, endOfMonth: bool)

  /** Shared by `billingDateSchema` and `validUtcCalendarDate`: no rollover, and not before 1900. */
  predicate CalendarDate(s: string) {
    && DatePattern(s)
    && var year, month, day := Value(s[0..4]), Value(s[5..7]), Value(s[8..10]);
       year >= 1900 && CivilOf(DateUtcDay(year, month - 1, day)) == Civil(year, month, day)
  }

  lemma {:induction false} CalendarDateIsReal(s: string)
    ensures CalendarDate(s) <==> ParseCivil(s).Some? && ParseCivil(s).value.year >= 1900
    ensures CalendarDate(s) ==> ParseCivil(s) == Some(Civil(Value(s[0..4]), Value(s[5..7]), Value(s[8..10])))
  {
    hide Value, AllDigits, Text, LastDay, MakeDay, First, MonthOf, DateOf, Length;
    if DatePattern(s) {
      PatternText(s);
      FieldBound(s[0..4]);
      assert Pow10(4) == 10000 by {
        assert Pow10(2) == 100;
      }
      var c := Civil(Value(s[0..4]), Value(s[5..7]), Value(s[8..10]));
      if c.year >= 1900 {
        DayNumberOfCivil(DateUtcDay(c.year, c.month - 1, c.day));
        if ValidCivil(c) {
          CivilOfDayNumber(c);
          ParseIffText(s, c);
        }
        if ParseCivil(s).Some? {
          ParseIffText(s, ParseCivil(s).value);
        }
      }
    }
  }

  /** A cost with a known schedule: a real anchor date and a whole period of 1 to 120 months. */
  predicate Exact(c: Cost) {
    && c.anchor.Some? && CalendarDate(c.anchor.value)
    && c.periodMonths.Floor as real == c.periodMonths && 1.0 <= c.periodMonths <= 120.0
  }

  // ----- The occurrence set -----

  /** Repeats from `month` every `period` months, on `day` clamped to the month; day 31 is always a month's end. */
  datatype Schedule = Schedule(month: int, day: int, period: int)

  predicate Recurs(s: Schedule) {
    1900 * 12 <= s.month <= 9999 * 12 + 11 && s.day >= 1 && 1 <= s.period <= 120
  }

  function ScheduleOf(c: Cost): (s: Schedule)
    requires Exact(c)
    ensures Recurs(s)
  {
    hide LastDay, Length, Value, AllDigits, CalendarDate;
    CalendarDateIsReal(c.anchor.value);
    var anchor := ParseCivil(c.anchor.value).value;
    Schedule(12 * anchor.year + anchor.month - 1, if c.endOfMonth then 31 else anchor.day, c.periodMonths.Floor)
  }

  function Occ(s: Schedule, n: nat): int {
    Clamped(s.month + n * s.period, s.day)
  }

  ghost predicate OccursOn(s: Schedule, day: int) {
    exists n: nat :: Occ(s, n) == day
  }

  lemma {:induction false} Steps(a: int, b: int, p: int)
    requires a < b && p >= 1
    ensures a * p + p <= b * p
    decreases b - a
  {
    assert b * p == (b - 1) * p + p;
    if a < b - 1 {
      Steps(a, b - 1, p);
    }
  }

  lemma Quotient(elapsed: int, p: int)
    requires p >= 1
    ensures elapsed / p * p <= elapsed < elapsed / p * p + p
  {
  }

  lemma {:induction false} OccIncreases(s: Schedule, a: nat, b: nat)
    requires Recurs(s) && a < b
    ensures Occ(s, a) < Occ(s, b)
  {
    hide Clamped;
    Steps(a, b, s.period);
    ClampedIncreases(s.month + a * s.period, s.month + b * s.period, s.day, s.day);
  }

  lemma {:induction false} OccInMonth(s: Schedule, n: nat)
    requires Recurs(s)
    ensures MonthOf(Occ(s, n)) == s.month + n * s.period
    ensures First(s.month + n * s.period) <= Occ(s, n) < First(s.month + n * s.period + 1)
  {
    hide Clamped, First, MonthOf;
    ClampedInMonth(s.month + n * s.period, s.day);
  }

  /** An occurrence in an earlier or later month than a day is before or after it. */
  lemma {:induction false} OccAgainstDay(s: Schedule, n: nat, day: int)
    requires Recurs(s)
    ensures s.month + n * s.period < MonthOf(day) ==> Occ(s, n) < day
    ensures s.month + n * s.period > MonthOf(day) ==> Occ(s, n) > day
  {
    hide Occ, First, MonthOf;
    var m, target := s.month + n * s.period, MonthOf(day);
    OccInMonth(s, n);
    if m < target {
      FirstMonotone(m + 1, target);
    } else if target < m {
      FirstMonotone(target + 1, m);
    }
  }

  // ----- The next due date -----

  function FirstStep(s: Schedule, base: int): nat
    requires Recurs(s)
  {
    Max(0, (MonthOf(base) - s.month) / s.period)
  }

  /** Steps before the first one tried are too early, and the one after it is late enough. */
  lemma {:induction false} FirstStepIsClose(s: Schedule, base: int)
    requires Recurs(s)
    ensures forall i: nat :: i < FirstStep(s, base) ==> Occ(s, i) < base
    ensures Occ(s, FirstStep(s, base) + 1) > base
  {
    hide Occ, MonthOf;
    var step, elapsed := FirstStep(s, base), MonthOf(base) - s.month;
    var q := elapsed / s.period;
    Quotient(elapsed, s.period);
    Steps(q, step + 1, s.period);
    OccAgainstDay(s, step + 1, base);
    forall i: nat | i < step
      ensures Occ(s, i) < base
    {
      Steps(i, q, s.period);
      OccAgainstDay(s, i, base);
    }
  }

  /** The number of the first occurrence not before a day, found in one or two tries. */
  function NextStep(s: Schedule, base: int): (n: nat)
    requires Recurs(s)
    ensures Occ(s, n) >= base
    ensures forall i: nat :: i < n ==> Occ(s, i) < base
  {
    hide Occ, FirstStep;
    FirstStepIsClose(s, base);
    var step := FirstStep(s, base);
    if Occ(s, step) < base then step + 1 else step
  }

  function NextDue(s: Schedule, base: int): int
    requires Recurs(s)
  {
    Occ(s, NextStep(s, base))
  }

  /** The next due date is the least occurrence not before the given day, among all of them. */
  lemma {:induction false} NextDueIsLeast(s: Schedule, base: int, day: int)
    requires Recurs(s)
    ensures NextDue(s, base) == day <==>
            day >= base && OccursOn(s, day) && forall n: nat :: Occ(s, n) >= base ==> Occ(s, n) >= day
  {
    hide Occ, NextStep, MonthOf;
    var k := NextStep(s, base);
    forall n: nat | Occ(s, n) >= base
      ensures Occ(s, n) >= Occ(s, k)
    {
      if n > k {
        OccIncreases(s, k, n);
      }
    }
  }

  /** The day after an occurrence, the next due date is the next occurrence. */
  lemma {:induction false} NextAfterOccurrence(s: Schedule, n: nat)
    requires Recurs(s)
    ensures NextStep(s, Occ(s, n) + 1) == n + 1
  {
    hide Occ, NextStep, FirstStep, MonthOf;
    OccIncreases(s, n, n + 1);
    var k := NextStep(s, Occ(s, n) + 1);
    if k < n {
      OccIncreases(s, k, n);
    }
  }

  /** `dateOnly`: midnight of a local day, through the constructor's year quirk. */
  function DateOnly(day: int): int {
    var c := CivilOf(day);
    DateUtcDay(c.year, c.month - 1, c.day)
  }

  lemma {:induction false} DateOnlyIsDay(day: int)
    requires CivilOf(day).year >= 100
    ensures DateOnly(day) == day
  {
    hide MakeDay, MonthOf;
    DayNumberOfCivil(day);
  }

  /** An occurrence as the program computes it: the month's first day, its last day, then the day within it. */
  function OccurrenceDay(anchor: Civil, period: int, endOfMonth: bool, n: nat): int {
    var start := CivilOf(DateUtcDay(anchor.year, anchor.month - 1 + n * period, 1));
    var last := LastDay(start.year, start.month - 1);
    MakeDay(start.year, start.month - 1, if endOfMonth then last else Min(anchor.day, last))
  }

  lemma {:induction false} OccurrenceDayIsOcc(c: Cost, n: nat)
    requires Exact(c)
    ensures ParseCivil(c.anchor.value).Some?
    ensures OccurrenceDay(ParseCivil(c.anchor.value).value, c.periodMonths.Floor, c.endOfMonth, n) == Occ(ScheduleOf(c), n)
  {
    hide Length, LastDay, MakeDay, First, MonthOf, Text, CalendarDate, ParseCivil;
    CalendarDateIsReal(c.anchor.value);
    var s, anchor := ScheduleOf(c), ParseCivil(c.anchor.value).value;
    var month := s.month + n * s.period;
    assert n * s.period >= 0;
    MakeDayIsMonthDay(anchor.year, anchor.month - 1 + n * s.period, 1);
    FirstNext(month);
    MonthOfUnique(First(month), month);
    var start := CivilOf(First(month));
    assert 12 * start.year + start.month - 1 == month;
    LastDayIsLength(start.year, start.month - 1);
    MakeDayIsMonthDay(start.year, start.month - 1, if c.endOfMonth then LastDay(start.year, start.month - 1) else Min(anchor.day, LastDay(start.year, start.month - 1)));
  }

  /** The next due date of a cost, or None when its schedule is not known. */
  method ComputeNextDueDate(c: Cost, from: int) returns (due: Option<int>)
    ensures due == if Exact(c) then Some(NextDue(ScheduleOf(c), DateOnly(from))) else None
  {
    hide CalendarDate, ParseCivil, MonthOf, Occ, OccurrenceDay, DateOnly;
    if !Exact(c) {
      return None;
    }
    CalendarDateIsReal(c.anchor.value);
    var anchor, period, base := ParseCivil(c.anchor.value).value, c.periodMonths.Floor, DateOnly(from);
    ghost var s := ScheduleOf(c);
    var elapsed := (CivilOf(base).year - anchor.year) * 12 + CivilOf(base).month - 1 - (anchor.month - 1);
    assert elapsed == MonthOf(base) - s.month;
    var step := Max(0, elapsed / period);
    OccurrenceDayIsOcc(c, step);
    OccurrenceDayIsOcc(c, step + 1);
    var day := OccurrenceDay(anchor, period, c.endOfMonth, step);
    if day < base {
      step := step + 1;
      day := OccurrenceDay(anchor, period, c.endOfMonth, step);
    }
    due := Some(day);
  }

  // ----- Windows -----

  /** The occurrences in [from, end), in order, trying every step from `n` on. */
  function OccurrencesFrom(s: Schedule, n: nat, from: int, end: int): seq<int>
    requires Recurs(s)
    decreases Max(0, end - Occ(s, n))
  {
    hide Occ;
    if Occ(s, n) >= end then []
    else
      OccIncreases(s, n, n + 1);
      (if Occ(s, n) >= from then [Occ(s, n)] else []) + OccurrencesFrom(s, n + 1, from, end)
  }

  function Window(s: Schedule, from: int, end: int): seq<int>
    requires Recurs(s)
  {
    OccurrencesFrom(s, 0, from, end)
  }

  lemma {:induction false} OccurrencesFromMembers(s: Schedule, n: nat, from: int, end: int, x: int)
    requires Recurs(s)
    ensures x in OccurrencesFrom(s, n, from, end) <==> from <= x < end && exists k: nat :: n <= k && Occ(s, k) == x
    decreases Max(0, end - Occ(s, n))
  {
    hide Occ;
    if Occ(s, n) < end {
      OccIncreases(s, n, n + 1);
      OccurrencesFromMembers(s, n + 1, from, end, x);
    } else if k: nat :| n <= k && Occ(s, k) == x {
      if n < k {
        OccIncreases(s, n, k);
      }
    }
  }

  /** A window holds exactly the occurrences between its ends. */
  lemma WindowMembers(s: Schedule, from: int, end: int, x: int)
    requires Recurs(s)
    ensures x in Window(s, from, end) <==> from <= x < end && OccursOn(s, x)
  {
    OccurrencesFromMembers(s, 0, from, end, x);
  }

  /** Strictly increasing, from a lowest value on. */
  predicate Ascends(w: seq<int>, low: int) {
    && (forall i :: 0 <= i < |w| ==> low <= w[i])
    && (forall i, j :: 0 <= i < j < |w| ==> w[i] < w[j])
  }

  lemma AscendsLonger(x: int, w: seq<int>, low: int)
    requires Ascends(w, low) && x < low
    ensures Ascends(w, x) && Ascends([x] + w, x)
  {
  }

  /** A window lists its occurrences in ascending order, each once. */
  lemma {:induction false} OccurrencesFromAscend(s: Schedule, n: nat, from: int, end: int)
    requires Recurs(s)
    ensures Ascends(OccurrencesFrom(s, n, from, end), Occ(s, n))
    decreases Max(0, end - Occ(s, n))
  {
    hide Occ, Ascends;
    if Occ(s, n) < end {
      OccIncreases(s, n, n + 1);
      OccurrencesFromAscend(s, n + 1, from, end);
      var rest := OccurrencesFrom(s, n + 1, from, end);
      AscendsLonger(Occ(s, n), rest, Occ(s, n + 1));
      assert OccurrencesFrom(s, n, from, end) == if Occ(s, n) >= from then [Occ(s, n)] + rest else rest;
    } else {
      assert Ascends([], Occ(s, n)) by {
        NothingAscends(Occ(s, n));
      }
    }
  }

  lemma NothingAscends(low: int)
    ensures Ascends([], low)
  {
  }

  /** Steps before the window may be skipped. */
  lemma {:induction false} SkipEarlier(s: Schedule, n: nat, k: nat, from: int, end: int)
    requires Recurs(s) && n <= k && forall i: nat :: n <= i < k ==> Occ(s, i) < from
    ensures OccurrencesFrom(s, n, from, end) == OccurrencesFrom(s, k, from, end)
    decreases k - n
  {
    hide Occ;
    if n < k {
      if Occ(s, n) < end {
        OccIncreases(s, n, n + 1);
        SkipEarlier(s, n + 1, k, from, end);
      } else {
        OccIncreases(s, n, k);
      }
    }
  }

  /** So a window may be listed from the next due date on. */
  lemma {:induction false} WindowFromNext(s: Schedule, from: int, end: int)
    requires Recurs(s)
    ensures Window(s, from, end) == OccurrencesFrom(s, NextStep(s, from), from, end)
  {
    hide Occ;
    SkipEarlier(s, 0, NextStep(s, from), from, end);
  }

  /** No schedule falls due three times within 30 days: two steps always span at least 56 days. */
  lemma AtMostTwo(s: Schedule, from: int)
    requires Recurs(s)
    ensures |Window(s, from, from + 30)| <= 2
  {
    hide Occ, NextStep, Window;
    var k := NextStep(s, from);
    WindowFromNext(s, from, from + 30);
    TwoStepsApart(s, k);
    OccIncreases(s, k, k + 1);
    assert OccurrencesFrom(s, k + 2, from, from + 30) == [];
  }

  lemma {:induction false} TwoStepsApart(s: Schedule, n: nat)
    requires Recurs(s)
    ensures Occ(s, n + 2) >= Occ(s, n) + 56
  {
    hide First, Length;
    var a, b := s.month + n * s.period, s.month + (n + 2) * s.period;
    assert b == a + 2 * s.period;
    FirstMonotone(a + 2, b);
    FirstNext(a);
    FirstNext(a + 1);
  }
}
