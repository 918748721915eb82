/** The due dates of a window listed as date texts, and exactly when that list is right. */
module DueEnumeration {
  import opened Prelude
  import opened Calendar
  import opened CivilText
  import opened PlanningTime
  import opened Recurrence
  import opened DueLists
  import opened StableSort
  import opened Predictions

  const OCCURRENCE_LIMIT: nat := 130

  /** `new Date(year, month - 1, day, 12)`, as the day it falls in. */
  function ToLocalNoon(date: string): Option<int> {
    match ParseCivil(date)
    case None => None
    case Some(c) => Some(UtcDayOf(c))
  }

  predicate Writable(day: int) {
    CivilOf(day).year >= 100
  }

  function ToCivil(day: int): string
    requires Writable(day)
  {
    hide MonthOf, DateOf, Length;
    CivilFieldsFit(day);
    Text(CivilOf(day))
  }

  /** `Date.UTC(...text.split("-").map(Number))`: the month's number, 1 to 12, goes in where an index is expected. */
  function ShiftedUtcDay(c: Civil): int {
    DateUtcDay(c.year, c.month, c.day)
  }

  function DaysUntil(day: int, from: Civil): int {
    ShiftedUtcDay(CivilOf(day)) - ShiftedUtcDay(from)
  }

  /** The days shown for an occurrence are right exactly when its month is as long as the starting month. */
  lemma {:induction false} DaysUntilRightExactlyWhen(day: int, from: Civil)
    requires Real(from) && from.year >= 100 && CivilOf(day).year >= 100
    ensures DaysUntil(day, from) == day - DayNumber(from) <==> Length(MonthOf(day)) == Length(MonthOf(DayNumber(from)))
  {
    hide First, MakeDay, MonthOf, Length, DateOf;
    CivilOfDayNumber(from);
    ShiftedByMonth(day);
    ShiftedByMonth(DayNumber(from));
  }

  /** From 31 March 2026, the charge of 30 April is shown as 29 days away, although it is 30. */
  lemma {:induction false} AprilIsOneDayOff()
    ensures var from, day := Civil(2026, 3, 31), DayNumber(Civil(2026, 4, 30));
      Real(from) && day - DayNumber(from) == 30 && DaysUntil(day, from) == 29
  {
    hide First, MakeDay, MonthOf, DateOf;
    var from, to := Civil(2026, 3, 31), Civil(2026, 4, 30);
    MakeDayIsMonthDay(2026, 2, 31);
    MakeDayIsMonthDay(2026, 3, 30);
    FirstNext(12 * 2026 + 2);
    CivilOfDayNumber(from);
    CivilOfDayNumber(to);
    ShiftedByMonth(DayNumber(from));
    ShiftedByMonth(DayNumber(to));
  }

  lemma {:induction false} ShiftedByMonth(day: int)
    requires CivilOf(day).year >= 100
    ensures ShiftedUtcDay(CivilOf(day)) == day + Length(MonthOf(day))
  {
    hide First, MakeDay, MonthOf, Length;
    var c := CivilOf(day);
    assert 12 * c.year + c.month == MonthOf(day) + 1;
    MakeDayIsMonthDay(c.year, c.month, c.day);
    FirstNext(MonthOf(day));
  }

  function Entries(c: Cost, days: seq<int>, from: Civil): (r: seq<Charge<string>>)
    requires forall i :: 0 <= i < |days| ==> Writable(days[i])
    ensures |r| == |days|
    ensures forall i :: 0 <= i < |r| ==> r[i] == Charge(c, ToCivil(days[i]), DaysUntil(days[i], from))
  {
    seq(|days|, i requires 0 <= i < |days| => Charge(c, ToCivil(days[i]), DaysUntil(days[i], from)))
  }

  // ----- One cost -----

  /** The days the loop visits: until one's text is not before the end's, its next day has no text, or the limit. */
  function Enumerated(s: Schedule, k: nat, until: string, fuel: nat): (r: seq<int>)
    requires Recurs(s)
    ensures forall i :: 0 <= i < |r| ==> Writable(r[i])
    decreases fuel
  {
    hide *;
    OccurrenceIsRecent(s, k);
    RecentIsWritable(Occ(s, k));
    if fuel == 0 || !TextLess(ToCivil(Occ(s, k)), until) then []
    else [Occ(s, k)] + if AddCivilDays(ToCivil(Occ(s, k)), 1).None? then [] else Enumerated(s, k + 1, until, fuel - 1)
  }

  /** A year with a text: the next day has one too, except after the last day of the year 9999. */
  lemma {:induction false} NextDayText(day: int)
    requires Writable(day)
    ensures AddCivilDays(ToCivil(day), 1) == if RealDay(day) && RealDay(day + 1) then Some(DayText(day + 1)) else None
    ensures RealDay(day) ==> ToCivil(day) == DayText(day)
  {
    hide MonthOf, DateOf, Length, ParseCivil, AddCivilDays, UtcDayOf, MakeDay, First, Text;
    CivilFieldsFit(day);
    DayNumberOfCivil(day);
    AddCivilDaysMeaning(ToCivil(day), 1);
    if RealDay(day) {
      ParseIffText(ToCivil(day), CivilOf(day));
      UtcDayIsDay(CivilOf(day));
    } else {
      LongYear(CivilOf(day));
    }
  }

  /** A text with five digits of year is no date. */
  lemma {:induction false} LongYear(c: Civil)
    requires c.year > 9999 && 0 <= c.month && 0 <= c.day
    ensures ParseCivil(Text(c)).None?
  {
    hide LastDay, Length, Value, AllDigits;
    assert Pow10(4) == 10000 by {
      assert Pow10(2) == 100;
    }
    DecimalLength(c.year, 4);
  }

  lemma {:induction false} LocalNoonOfText(day: int)
    requires RealDay(day) && Writable(day)
    ensures ToLocalNoon(DayText(day)) == Some(day)
  {
    hide MonthOf, DateOf, Length, ParseCivil, MakeDay, UtcDayOf;
    DayNumberOfCivil(day);
    ParseIffText(DayText(day), CivilOf(day));
    UtcDayIsDay(CivilOf(day));
  }

  lemma {:induction false} RealYears(day: int)
    ensures RealDay(day) <==> 1 <= CivilOf(day).year <= 9999
  {
    hide MonthOf, DateOf, Length, MakeDay;
    DayNumberOfCivil(day);
  }

  lemma {:induction false} RealBefore(a: int, b: int)
    requires a <= b && RealDay(b) && Writable(a)
    ensures RealDay(a)
  {
    hide MonthOf, DateOf, RealDay;
    RealYears(a);
    RealYears(b);
    MonthOfMonotone(a, b);
  }

  /** What is listed: the window's own days up to the limit, and one more when the next due date has no date text. */
  function Visited(w: seq<int>, next: int, fuel: nat): seq<int> {
    if |w| >= fuel then w[..fuel] else if RealDay(next) then w else w + [next]
  }

  lemma {:induction false} EnumeratedRun(s: Schedule, k: nat, base: int, until: string, fuel: nat)
    requires Recurs(s) && ParseCivil(until).Some? && Occ(s, k) >= base
    requires k > 0 ==> Occ(s, k - 1) < DayOf(until)
    ensures Enumerated(s, k, until, fuel) == Visited(OccurrencesFrom(s, k, base, DayOf(until)), NextDue(s, DayOf(until)), fuel)
    decreases fuel
  {
    hide *;
    EnumeratedOnce(s, k, until, fuel);
    OccIncreases(s, k, k + 1);
    if fuel > 0 && Occ(s, k) < DayOf(until) {
      EnumeratedRun(s, k + 1, base, until, fuel - 1);
    }
    VisitedOnce(s, k, base, DayOf(until), fuel);
  }

  lemma {:induction false} EnumeratedOnce(s: Schedule, k: nat, until: string, fuel: nat)
    requires Recurs(s) && ParseCivil(until).Some? && (k > 0 ==> Occ(s, k - 1) < DayOf(until))
    ensures Enumerated(s, k, until, fuel)
         == if fuel == 0 then []
            else if Occ(s, k) < DayOf(until) then [Occ(s, k)] + Enumerated(s, k + 1, until, fuel - 1)
            else if RealDay(Occ(s, k)) then [] else [Occ(s, k)]
    ensures Occ(s, k) >= DayOf(until) ==> NextDue(s, DayOf(until)) == Occ(s, k)
  {
    hide Occ, Recurs, TextLess, AddCivilDays, ToCivil, NextStep, ParseCivil, DayOf, RealDay, Writable, DayText;
    var day, end := Occ(s, k), DayOf(until);
    OccurrenceIsRecent(s, k);
    RecentIsWritable(day);
    NextDayText(day);
    ListedOrNot(s, k, until);
    if day < end {
      TextIsReal(until);
      NextDayIsReal(day, end);
    }
  }

  lemma VisitedOnce(s: Schedule, k: nat, base: int, end: int, fuel: nat)
    requires Recurs(s) && Occ(s, k) >= base
    ensures var next := NextDue(s, end);
      Visited(OccurrencesFrom(s, k, base, end), next, fuel)
      == if fuel == 0 then []
         else if Occ(s, k) < end then [Occ(s, k)] + Visited(OccurrencesFrom(s, k + 1, base, end), next, fuel - 1)
         else if RealDay(next) then [] else [next]
  {
    hide Occ, Recurs, RealDay, NextDue;
    var rest := OccurrencesFrom(s, k + 1, base, end);
    if fuel > 0 && Occ(s, k) < end {
      assert OccurrencesFrom(s, k, base, end) == [Occ(s, k)] + rest;
      if |rest| + 1 >= fuel {
        assert ([Occ(s, k)] + rest)[..fuel] == [Occ(s, k)] + rest[..fuel - 1];
      }
    }
  }

  lemma {:induction false} RecentIsWritable(day: int)
    requires CivilOf(day).year >= 1900
    ensures Writable(day)
  {
  }

  lemma {:induction false} TextIsReal(s: string)
    requires ParseCivil(s).Some?
    ensures RealDay(DayOf(s)) && s == DayText(DayOf(s))
  {
    hide MonthOf, DateOf, Length, MakeDay, ParseCivil, Text;
    ParseIffText(s, ParseCivil(s).value);
    CivilOfDayNumber(ParseCivil(s).value);
  }

  lemma {:induction false} NextDayIsReal(day: int, end: int)
    requires Writable(day) && day < end && RealDay(end)
    ensures RealDay(day) && RealDay(day + 1)
  {
    hide MonthOf, DateOf, RealDay;
    RealBefore(day, end);
    MonthOfMonotone(day, day + 1);
    RealBefore(day + 1, end);
  }

  /** An occurrence passes the text comparison when it is before the end, or when its year has five digits. */
  lemma {:induction false} ListedOrNot(s: Schedule, k: nat, until: string)
    requires Recurs(s) && ParseCivil(until).Some? && Writable(Occ(s, k)) && (k > 0 ==> Occ(s, k - 1) < DayOf(until))
    ensures TextLess(ToCivil(Occ(s, k)), until) <==> Occ(s, k) < DayOf(until) || !RealDay(Occ(s, k))
    ensures Occ(s, k) >= DayOf(until) ==> NextStep(s, DayOf(until)) == k
    ensures !RealDay(Occ(s, k)) ==> Occ(s, k) >= DayOf(until)
  {
    hide Occ, Recurs, TextLess, AddCivilDays, ToCivil, ParseCivil, DayOf, RealDay, Writable, DayText, NextStep;
    var day, end := Occ(s, k), DayOf(until);
    TextIsReal(until);
    NextDayText(day);
    if day < end {
      RealBefore(day, end);
    } else {
      IsNextStep(s, k, end);
    }
    if RealDay(day) {
      TextOrderIsDayOrder(DayText(day), until);
    } else {
      LateDue(s, k, end);
      FiveDigitsFirst(day, end);
    }
  }

  lemma {:induction false} IsNextStep(s: Schedule, k: nat, end: int)
    requires Recurs(s) && Occ(s, k) >= end && (k > 0 ==> Occ(s, k - 1) < end)
    ensures NextStep(s, end) == k
  {
    hide Occ, NextStep;
    var n := NextStep(s, end);
    if n < k - 1 {
      OccIncreases(s, n, k - 1);
    }
  }

  /** One step is at most ten years. */
  lemma {:induction false} StepInMonths(s: Schedule, k: nat)
    requires Recurs(s)
    ensures k == 0 ==> MonthOf(Occ(s, k)) <= 9999 * 12 + 11
    ensures k > 0 ==> MonthOf(Occ(s, k)) <= MonthOf(Occ(s, k - 1)) + 120
  {
    hide Occ, MonthOf, First;
    OccInMonth(s, k);
    if k > 0 {
      OccInMonth(s, k - 1);
      assert k * s.period == (k - 1) * s.period + s.period;
    }
  }

  lemma YearAndMonth(day: int)
    ensures 12 * CivilOf(day).year <= MonthOf(day) <= 12 * CivilOf(day).year + 11
  {
    hide MonthOf, DateOf;
  }

  /** A due date past the year 9999 is at most ten years past the window it was looked for. */
  lemma {:induction false} LateDue(s: Schedule, k: nat, end: int)
    requires Recurs(s) && Writable(Occ(s, k)) && !RealDay(Occ(s, k)) && RealDay(end) && (k > 0 ==> Occ(s, k - 1) < end)
    ensures 10_000 <= CivilOf(Occ(s, k)).year <= 10_009 && CivilOf(end).year >= 9990
  {
    hide Occ, RealDay, MonthOf, CivilOf, First, Recurs;
    RealYears(Occ(s, k));
    RealYears(end);
    StepInMonths(s, k);
    YearAndMonth(Occ(s, k));
    YearAndMonth(end);
    if k > 0 {
      MonthOfMonotone(Occ(s, k - 1), end);
    }
  }

  lemma {:induction false} FiveDigitsFirst(day: int, end: int)
    requires Writable(day) && 10_000 <= CivilOf(day).year <= 10_009 && RealDay(end) && CivilOf(end).year >= 9990
    ensures TextLess(ToCivil(day), DayText(end))
  {
    hide MonthOf, DateOf, Length, MakeDay, ParseCivil;
    var y := CivilOf(day).year;
    CivilFieldsFit(day);
    CivilFieldsFit(end);
    FirstDigitOne(y);
    assert Text(CivilOf(day))[0] == '1';
    TextFields(CivilOf(end));
    FirstDigitNine(Text(CivilOf(end))[0..4]);
  }

  lemma FirstDigitOne(n: nat)
    requires 10_000 <= n <= 10_009
    ensures |Decimal(n)| >= 4 && Decimal(n)[0] == '1'
  {
    hide Decimal;
    FirstDigitOf(n);
    FirstDigitOf(n / 10);
    FirstDigitOf(n / 100);
    FirstDigitOf(n / 1000);
    OneDigit();
  }

  lemma FirstDigitOf(n: nat)
    requires n >= 10
    ensures |Decimal(n)| == |Decimal(n / 10)| + 1 && |Decimal(n / 10)| >= 1 && Decimal(n)[0] == Decimal(n / 10)[0]
  {
    DecimalNotEmpty(n / 10);
  }

  lemma OneDigit()
    ensures Decimal(1) == "1"
  {
  }

  lemma FirstDigitNine(s: string)
    requires |s| == 4 && AllDigits(s) && Value(s) >= 9990
    ensures s[0] == '9'
  {
    assert s[..3][..2] == s[..2] && s[..2][..1] == s[..1] && s[..1][..0] == [];
    assert Value(s) == 10 * Value(s[..3]) + (s[3] as int - '0' as int);
    assert Value(s[..3]) == 10 * Value(s[..2]) + (s[2] as int - '0' as int);
    assert Value(s[..2]) == 10 * Value(s[..1]) + (s[1] as int - '0' as int);
    assert Value(s[..1]) == s[0] as int - '0' as int;
  }

  /** The loop over one cost, for every window: it lists the window's occurrences, at most 130 of them, and with
      them a due date past the year 9999 if the search gets to one, because its text compares as smaller. */
  lemma {:induction false} EnumerationVisits(s: Schedule, from: string, until: string)
    requires Recurs(s) && ParseCivil(from).Some? && ParseCivil(until).Some?
    requires ParseCivil(from).value.year >= 100 && DayOf(from) <= DayOf(until)
    ensures Enumerated(s, NextStep(s, DayOf(from)), until, OCCURRENCE_LIMIT)
         == Visited(Window(s, DayOf(from), DayOf(until)), NextDue(s, DayOf(until)), OCCURRENCE_LIMIT)
  {
    hide Occ, Recurs, NextStep, ParseCivil, DayOf, Enumerated, Visited, OccurrencesFrom, Window;
    WindowFromNext(s, DayOf(from), DayOf(until));
    EnumeratedRun(s, NextStep(s, DayOf(from)), DayOf(from), until, OCCURRENCE_LIMIT);
  }

  /** So the list is exactly the window's occurrences if and only if the window has at most 130 and, when it has
      fewer, the next due date at or after its end is still in the year 9999. */
  lemma {:induction false} EnumerationExactlyWhen(s: Schedule, from: string, until: string)
    requires Recurs(s) && ParseCivil(from).Some? && ParseCivil(until).Some?
    requires ParseCivil(from).value.year >= 100 && DayOf(from) <= DayOf(until)
    ensures var w := Window(s, DayOf(from), DayOf(until));
      Enumerated(s, NextStep(s, DayOf(from)), until, OCCURRENCE_LIMIT) == w
      <==> |w| == OCCURRENCE_LIMIT || (|w| < OCCURRENCE_LIMIT && RealDay(NextDue(s, DayOf(until))))
  {
    hide Occ, Recurs, NextStep, NextDue, ParseCivil, DayOf, Enumerated, OccurrencesFrom, Window, RealDay;
    EnumerationVisits(s, from, until);
    var w := Window(s, DayOf(from), DayOf(until));
    assert |w + [NextDue(s, DayOf(until))]| == |w| + 1;
    assert |w| == OCCURRENCE_LIMIT ==> w[..OCCURRENCE_LIMIT] == w;
  }

  ghost predicate ListsLate(s: Schedule, from: int, until: int) {
    && Recurs(s) && RealDay(from) && RealDay(until)
    && Enumerated(s, NextStep(s, from), DayText(until), OCCURRENCE_LIMIT) == [Occ(s, 1)] && Occ(s, 1) > until
  }

  /** A yearly cost of 31 January 9999: in the last weeks of that year its next charge, due in January 10000, is
      listed although it is after the window's end. */
  lemma {:induction false} LateChargeIsListed()
    ensures ListsLate(Schedule(9999 * 12, 31, 12), DayNumber(Civil(9999, 12, 1)), DayNumber(Civil(9999, 12, 31)))
  {
    hide MonthOf, DateOf, DayNumber, ParseCivil, Occ, Enumerated, NextStep, First, Length, DayText, Text, RealDay;
    DecemberDays();
    var a, b := Civil(9999, 12, 1), Civil(9999, 12, 31);
    CivilOfDayNumber(a);
    CivilOfDayNumber(b);
    CivilOrder(a, b);
    RealYears(DayNumber(a));
    RealYears(DayNumber(b));
    LateCharge(Schedule(9999 * 12, 31, 12), DayNumber(a), DayNumber(b));
  }

  lemma {:induction false} LateCharge(s: Schedule, from: int, until: int)
    requires Recurs(s) && RealDay(from) && RealDay(until) && s.month + s.period == 120_000
    requires MonthOf(from) == MonthOf(until) == 119_999 && from <= until && s.month < 119_999
    ensures ListsLate(s, from, until)
  {
    hide MonthOf, DateOf, ParseCivil, Occ, Enumerated, NextStep, First, Length, DayText, Text, RealDay, Recurs, DayOf,
      Window;
    TextIsReal(DayText(from));
    TextIsReal(DayText(until));
    DayTextParses(from);
    OccAgainstDay(s, 0, from);
    OccAgainstDay(s, 1, until);
    OccAgainstDay(s, 0, until);
    IsNextStep(s, 1, from);
    IsNextStep(s, 1, until);
    OccInMonth(s, 1);
    RealYears(Occ(s, 1));
    WindowFromNext(s, from, until);
    EnumerationVisits(s, DayText(from), DayText(until));
  }

  lemma {:induction false} DayTextParses(day: int)
    requires RealDay(day)
    ensures ParseCivil(DayText(day)) == Some(CivilOf(day))
  {
    hide MonthOf, DateOf, Length, MakeDay, ParseCivil, Text;
    ParseIffText(Text(CivilOf(day)), CivilOf(day));
  }

  lemma DecemberDays()
    ensures ValidCivil(Civil(9999, 12, 1)) && ValidCivil(Civil(9999, 12, 31))
  {
  }
}
