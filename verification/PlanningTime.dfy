/** The calendar of the weekly plan: shifting date texts by days, weeks, and the paydays in a range. */
module PlanningTime {
  import opened Prelude
  import opened Calendar
  import opened CivilText

  /** The date a text stands for, as a day number. */
  function DayOf(s: string): int
    requires ParseCivil(s).Some?
  {
    DayNumber(ParseCivil(s).value)
  }

  /** Date texts compare as their day numbers do, and two texts of one day are one text. */
  lemma {:induction false} TextOrderIsDayOrder(a: string, b: string)
    requires ParseCivil(a).Some? && ParseCivil(b).Some?
    ensures TextLess(a, b) <==> DayOf(a) < DayOf(b)
    ensures a == b <==> DayOf(a) == DayOf(b)
  {
    hide LastDay, MakeDay, Length, Text, TextLess, Value;
    var p, q := ParseCivil(a).value, ParseCivil(b).value;
    ParseIffText(a, p);
    ParseIffText(b, q);
    CivilOrder(p, q);
    CivilOrder(q, p);
    PatternOrder(a, b);
  }

  lemma Pieces(s: string)
    requires |s| == 10 && s[4] == '-' && s[7] == '-'
    ensures s == s[0..4] + ("-" + (s[5..7] + ("-" + s[8..10])))
  {
  }

  lemma PatternOrder(a: string, b: string)
    requires DatePattern(a) && DatePattern(b)
    ensures TextLess(a, b) <==> CivilLess(Civil(Value(a[0..4]), Value(a[5..7]), Value(a[8..10])), Civil(Value(b[0..4]), Value(b[5..7]), Value(b[8..10])))
  {
    hide Value;
    var x, y := a[5..7] + ("-" + a[8..10]), b[5..7] + ("-" + b[8..10]);
    Pieces(a);
    Pieces(b);
    TextLessSplit(a[0..4], b[0..4], "-" + x, "-" + y);
    TextLessSplit("-", "-", x, y);
    TextLessSplit(a[5..7], b[5..7], "-" + a[8..10], "-" + b[8..10]);
    TextLessSplit("-", "-", a[8..10], b[8..10]);
    DigitOrder(a[0..4], b[0..4]);
    DigitOrder(a[5..7], b[5..7]);
    DigitOrder(a[8..10], b[8..10]);
  }

  function AddCivilDays(value: string, days: int): Option<string> {
    match ParseCivil(value)
    case None => None
    case Some(date) =>
      var shifted := CivilOf(DateUtcDay(date.year, date.month - 1, date.day) + days);
      if shifted.year < 1 || shifted.year > 9999 then None else CivilToString(shifted)
  }

  /** The day of a real date as the program computes it: `Date.UTC` moves the years 1 to 99 to 1901 to 1999. */
  function UtcDayOf(c: Civil): int {
    DateUtcDay(c.year, c.month - 1, c.day)
  }

  lemma UtcDayIsDay(c: Civil)
    requires Real(c)
    ensures UtcDayOf(c) == DayNumber(c) <==> c.year >= 100
    ensures c.year >= 100 ==> UtcDayOf(c) == DayNumber(c)
  {
    hide MakeDay;
    if c.year < 100 {
      MakeDayIsMonthDay(c.year, c.month - 1, c.day);
      MakeDayIsMonthDay(c.year + 1900, c.month - 1, c.day);
      hide First;
      FirstMonotone(12 * c.year + c.month - 1, 12 * (c.year + 1900) + c.month - 1);
    }
  }

  /** What addCivilDays returns, for every text and every number of days. */
  lemma {:induction false} AddCivilDaysMeaning(value: string, days: int)
    ensures var r := AddCivilDays(value, days);
      match ParseCivil(value)
      case None => r == None
      case Some(date) =>
        var c := CivilOf(UtcDayOf(date) + days);
        if Real(c) then r == Some(Text(c)) && ParseCivil(r.value) == Some(c) && DayOf(r.value) == UtcDayOf(date) + days
        else r == None
  {
    hide ParseCivil, DateUtcDay, CivilOf, DayNumber, Length, Text;
    if ParseCivil(value).Some? {
      var date := ParseCivil(value).value;
      var day := UtcDayOf(date) + days;
      var c := CivilOf(day);
      DayNumberOfCivil(day);
      CivilFieldsFit(day);
      CivilToStringIsText(c);
      if Real(c) {
        ParseIffText(Text(c), c);
      }
    }
  }

  lemma CivilFieldsFit(day: int)
    ensures 1 <= CivilOf(day).month <= 12 && 1 <= CivilOf(day).day <= 31
  {
    hide First, MonthOf;
    assert Length(MonthOf(day)) <= 31;
  }

  /** Shifts compose additively as long as the date in between is not before the year 100. */
  lemma {:induction false} AddCivilDaysComposes(value: string, a: int, b: int)
    requires AddCivilDays(value, a).Some?
    requires ParseCivil(AddCivilDays(value, a).value).value.year >= 100
    ensures AddCivilDays(AddCivilDays(value, a).value, b) == AddCivilDays(value, a + b)
  {
    hide AddCivilDays, ParseCivil, CivilOf, Text, UtcDayOf, Length, MakeDay;
    AddCivilDaysMeaning(value, a);
    var middle := AddCivilDays(value, a).value;
    AddCivilDaysMeaning(middle, b);
    AddCivilDaysMeaning(value, a + b);
    UtcDayIsDay(ParseCivil(middle).value);
  }

  /** The negated count undoes a shift, again from the year 100 on. */
  lemma {:induction false} AddCivilDaysUndone(value: string, days: int)
    requires ParseCivil(value).Some? && ParseCivil(value).value.year >= 100
    requires AddCivilDays(value, days).Some? && ParseCivil(AddCivilDays(value, days).value).value.year >= 100
    ensures AddCivilDays(AddCivilDays(value, days).value, -days) == Some(value)
  {
    hide AddCivilDays, ParseCivil, CivilOf, Text, UtcDayOf, Length, MakeDay, DayNumber, ValidCivil;
    AddCivilDaysComposes(value, days, -days);
    ShiftByZero(value);
  }

  /** Shifting by no days gives the date back exactly when its year is 100 or later. */
  lemma {:induction false} ShiftByZero(value: string)
    requires ParseCivil(value).Some?
    ensures AddCivilDays(value, 0) == Some(value) <==> ParseCivil(value).value.year >= 100
  {
    hide AddCivilDays, ParseCivil, CivilOf, Text, UtcDayOf, Length, DayNumber;
    var c := ParseCivil(value).value;
    ParseIffText(value, c);
    AddCivilDaysMeaning(value, 0);
    UtcDayIsDay(c);
    CivilOfDayNumber(c);
    DayNumberOfCivil(UtcDayOf(c));
  }

  // ----- Weeks -----

  /** Monday is 1 and Sunday 7; 1970-01-01 was a Thursday. */
  function IsoWeekday(day: int): (w: int)
    ensures 1 <= w <= 7
  {
    (day + 3) % 7 + 1
  }

  /** `getUTCDay() || 7`, where getUTCDay counts from Sunday. */
  function IsoWeekdayOf(value: string): Option<int> {
    match ParseCivil(value)
    case None => None
    case Some(date) =>
      var fromSunday := (UtcDayOf(date) + 4) % 7;
      Some(if fromSunday == 0 then 7 else fromSunday)
  }

  const LAST_WEEK_START := "9999-12-25"

  function WeekStartFor(value: string, weekStartDay: int): Option<string> {
    match IsoWeekdayOf(value)
    case None => None
    case Some(weekday) =>
      if weekStartDay < 1 || weekStartDay > 7 then None
      else
        var start := AddCivilDays(value, -((weekday - weekStartDay + 7) % 7));
        if start.None? || TextLess(LAST_WEEK_START, start.value) then None else start
  }

  /** Among the seven days up to a date, exactly one has the wanted weekday. */
  lemma {:induction false} WeekdayInLastSeven(day: int, weekday: int, x: int)
    requires 1 <= weekday <= 7
    ensures day - 7 < x <= day && IsoWeekday(x) == weekday <==> x == day - (IsoWeekday(day) - weekday + 7) % 7
  {
    var back := (IsoWeekday(day) - weekday + 7) % 7;
    assert IsoWeekday(day - back) == weekday by {
      assert (day - back + 3) % 7 == ((day + 3) % 7 - back) % 7;
    }
    if day - 7 < x <= day && IsoWeekday(x) == weekday {
      assert (x + 3) % 7 == (day - back + 3) % 7;
    }
  }

  /** Without a readable date or a weekday there is no week. Otherwise, of the day the program takes the date for, the
      start of the week is the one date of the wanted weekday within the last seven days; it is refused only after
      9999-12-25. From the year 100 on, that day is the date's own. */
  lemma {:induction false} WeekStartForMeaning(value: string, weekStartDay: int)
    ensures ParseCivil(value).None? || !(1 <= weekStartDay <= 7) ==> WeekStartFor(value, weekStartDay).None?
    ensures ParseCivil(value).Some? && 1 <= weekStartDay <= 7 ==>
      var r, day := WeekStartFor(value, weekStartDay), UtcDayOf(ParseCivil(value).value);
      && (ParseCivil(value).value.year >= 100 ==> day == DayOf(value))
      && exists x ::
        && day - 7 < x <= day && IsoWeekday(x) == weekStartDay
        && (r.Some? <==> x <= DayNumber(Civil(9999, 12, 25)))
        && (r.Some? ==> ParseCivil(r.value).Some? && DayOf(r.value) == x)
  {
    hide ParseCivil, Text, TextLess, Length, AddCivilDays, MakeDay, First, MonthOf, UtcDayOf;
    if ParseCivil(value).Some? && 1 <= weekStartDay <= 7 {
      var c := ParseCivil(value).value;
      ParseIffText(value, c);
      UtcDayIsDay(c);
      var day := UtcDayOf(c);
      var back := (IsoWeekday(day) - weekStartDay + 7) % 7;
      SundayLast(day);
      WeekdayInLastSeven(day, weekStartDay, day - back);
      AddCivilDaysMeaning(value, -back);
      TakenForDate(c);
      StaysReal(TakenFor(c), back);
      LastWeekStartText();
      TextOrderIsDayOrder(LAST_WEEK_START, AddCivilDays(value, -back).value);
      assert WeekStartFor(value, weekStartDay) ==
        if TextLess(LAST_WEEK_START, AddCivilDays(value, -back).value) then None else AddCivilDays(value, -back);
    }
  }

  /** The date whose day `Date.UTC` gives for a date. */
  function TakenFor(c: Civil): Civil {
    Civil(FullYear(c.year), c.month, c.day)
  }

  lemma {:induction false} TakenForDate(c: Civil)
    requires Real(c)
    ensures Real(TakenFor(c)) && TakenFor(c).year >= 100 && UtcDayOf(c) == DayNumber(TakenFor(c))
  {
    hide MakeDay, MonthLength;
    if c.year < 100 {
      assert (12 * c.year + c.month - 1) / 12 == c.year && (12 * (1900 + c.year) + c.month - 1) / 12 == 1900 + c.year;
      LeapCenturies(c.year);
    }
  }

  lemma LeapCenturies(y: int)
    requires 1 <= y <= 99
    ensures IsLeap(1900 + y) == IsLeap(y)
  {
  }

  lemma SundayLast(day: int)
    ensures IsoWeekday(day) == if (day + 4) % 7 == 0 then 7 else (day + 4) % 7
  {
  }

  lemma {:induction false} LastWeekStartText()
    ensures ParseCivil(LAST_WEEK_START) == Some(Civil(9999, 12, 25))
  {
    hide LastDay, Length, Value, AllDigits;
    LastWeekStartFields();
    RealDays(9999, 12);
    assert Length(12 * 9999 + 11) >= 28;
  }

  lemma LastWeekStartFields()
    ensures var s := LAST_WEEK_START;
      && DatePattern(s)
      && Value(s[0..4]) == 9999 && Value(s[5..7]) == 12 && Value(s[8..10]) == 25
  {
    hide Value;
    var s := LAST_WEEK_START;
    assert AllDigits([]) && Value([]) == 0 by {
      ValueOfNothing();
    }
    ValueOfPair('9', '9', []);
    ValueOfPair('9', '9', [] + ['9', '9']);
    ValueOfPair('1', '2', []);
    ValueOfPair('2', '5', []);
    assert s[0..4] == ([] + ['9', '9']) + ['9', '9'];
    assert s[5..7] == [] + ['1', '2'];
    assert s[8..10] == [] + ['2', '5'];
  }

  lemma ValueOfNothing()
    ensures AllDigits([]) && Value([]) == 0
  {
  }

  lemma ValueOfPair(a: char, b: char, s: string)
    requires IsDigit(a) && IsDigit(b) && AllDigits(s)
    ensures AllDigits(s + [a, b])
    ensures Value(s + [a, b]) == 100 * Value(s) + 10 * (a as int - '0' as int) + (b as int - '0' as int)
  {
    assert (s + [a, b])[..|s| + 1] == s + [a];
    assert (s + [a])[..|s|] == s;
  }

  /** Going back less than a week from the year 100 or later stays in the supported years. */
  lemma {:induction false} StaysReal(c: Civil, back: int)
    requires Real(c) && c.year >= 100 && 0 <= back < 7
    ensures Real(CivilOf(DayNumber(c) - back))
  {
    hide First, Length, MakeDay, ValidCivil, DateOf;
    var day := DayNumber(c);
    CivilOfDayNumber(c);
    DayNumberOfCivil(day - back);
    MonthOfMonotone(day - back, day);
    var earlier := MonthOf(day - back);
    if earlier < MonthOf(day) {
      FirstMonotone(earlier + 1, MonthOf(day));
    }
    assert MonthOf(day) - earlier <= 1;
  }

  // ----- Paydays -----

  /** The clamped payday of each month from `lo` to `hi` that lies in [from, to). */
  function Paydays(from: int, to: int, lo: int, hi: int, paydayDay: int): seq<int>
    decreases hi - lo
  {
    if lo > hi then []
    else
      var day := Clamped(lo, paydayDay);
      (if from <= day < to then [day] else []) + Paydays(from, to, lo + 1, hi, paydayDay)
  }

  predicate RealDay(day: int) {
    Real(CivilOf(day))
  }

  function DayText(day: int): (s: string)
    requires RealDay(day)
    ensures ParseCivil(s).Some? && DayOf(s) == day
  {
    hide Length, MonthOf, Text, ParseCivil, MakeDay, First;
    DayNumberOfCivil(day);
    ParseIffText(Text(CivilOf(day)), CivilOf(day));
    Text(CivilOf(day))
  }

  predicate AreTexts(texts: seq<string>, days: seq<int>) {
    |texts| == |days| && forall i :: 0 <= i < |texts| ==> RealDay(days[i]) && texts[i] == DayText(days[i])
  }

  /** Over the months of a range, the list holds exactly the clamped paydays of the range, in ascending order. */
  lemma {:induction false} PaydaysComplete(from: int, to: int, paydayDay: int, x: int)
    requires 1 <= paydayDay
    ensures x in Paydays(from, to, MonthOf(from), MonthOf(to), paydayDay) <==>
            from <= x < to && x == Clamped(MonthOf(x), paydayDay)
  {
    hide First, Length, Clamped;
    PaydaysMembers(from, to, MonthOf(from), MonthOf(to), paydayDay, x);
    if from <= x < to {
      MonthOfMonotone(from, x);
      MonthOfMonotone(x, to);
    }
  }

  lemma {:induction false} PaydaysMembers(from: int, to: int, lo: int, hi: int, paydayDay: int, x: int)
    requires 1 <= paydayDay
    ensures x in Paydays(from, to, lo, hi, paydayDay) <==>
            from <= x < to && lo <= MonthOf(x) <= hi && x == Clamped(MonthOf(x), paydayDay)
    decreases hi - lo
  {
    hide First, Length, Clamped, MonthOf;
    if lo <= hi {
      ClampedInMonth(lo, paydayDay);
      PaydaysMembers(from, to, lo + 1, hi, paydayDay, x);
    }
  }

  lemma {:induction false} PaydaysAscend(from: int, to: int, lo: int, hi: int, paydayDay: int)
    requires 1 <= paydayDay
    ensures var p := Paydays(from, to, lo, hi, paydayDay);
      forall i, j :: 0 <= i < j < |p| ==> p[i] < p[j]
    decreases hi - lo
  {
    hide First, Length, Clamped, MonthOf;
    if lo <= hi {
      var rest := Paydays(from, to, lo + 1, hi, paydayDay);
      PaydaysAscend(from, to, lo + 1, hi, paydayDay);
      forall j | 0 <= j < |rest|
        ensures Clamped(lo, paydayDay) < rest[j]
      {
        PaydaysMembers(from, to, lo + 1, hi, paydayDay, rest[j]);
        ClampedIncreases(lo, MonthOf(rest[j]), paydayDay, paydayDay);
      }
    }
  }

  const PAYDAY_MONTH_LIMIT := 600

  /** The loop lists the paydays of the range, over at most 600 months, as texts. */
  method PaydayOccurrences(fromInclusive: string, toExclusive: string, paydayDay: int) returns (occurrences: seq<string>)
    ensures ParseCivil(fromInclusive).None? || ParseCivil(toExclusive).None? || !(1 <= paydayDay <= 31) ==> occurrences == []
    ensures ParseCivil(fromInclusive).Some? && ParseCivil(toExclusive).Some? && 1 <= paydayDay <= 31 ==>
      var lo, hi := MonthOf(DayOf(fromInclusive)), MonthOf(DayOf(toExclusive));
      AreTexts(occurrences,
        Paydays(DayOf(fromInclusive), DayOf(toExclusive), lo, Min(hi, lo + PAYDAY_MONTH_LIMIT - 1), paydayDay))
  {
    hide First, Length, ParseCivil, Text, TextLess, MonthOf, MakeDay, LastDay, Clamped, ValidCivil, DayText, CivilOf;
    var from, to := ParseCivil(fromInclusive), ParseCivil(toExclusive);
    if from.None? || to.None? || paydayDay < 1 || paydayDay > 31 {
      return [];
    }
    ParseIffText(fromInclusive, from.value);
    ParseIffText(toExclusive, to.value);
    CivilOfDayNumber(from.value);
    CivilOfDayNumber(to.value);
    ghost var first, end := DayOf(fromInclusive), DayOf(toExclusive);
    ghost var lo := MonthOf(first);
    assert MonthOf(end) == 12 * to.value.year + to.value.month - 1;
    occurrences := [];
    var year, month, guard := from.value.year, from.value.month, 0;
    RealFields(from.value);
    RealFields(to.value);
    assert Paydays(first, end, lo, lo - 1, paydayDay) == [];
    hide Paydays, Real, DayNumber, DayOf;
    while (year < to.value.year || (year == to.value.year && month <= to.value.month)) && guard < PAYDAY_MONTH_LIMIT
      invariant 0 <= guard <= PAYDAY_MONTH_LIMIT && 1 <= month <= 12 && year >= 1
      invariant 12 * year + month - 1 == lo + guard
      invariant guard == 0 || lo + guard <= MonthOf(end) + 1
      invariant AreTexts(occurrences, Paydays(first, end, lo, lo + guard - 1, paydayDay))
      decreases PAYDAY_MONTH_LIMIT - guard
    {
      CandidateIsClampedDay(year, month, paydayDay);
      PaydaysNext(first, end, lo, lo + guard, paydayDay);
      guard := guard + 1;
      var candidate := CivilToString(Civil(year, month, Min(paydayDay, LastDay(year, month - 1))));
      TextOrderIsDayOrder(candidate.value, fromInclusive);
      TextOrderIsDayOrder(candidate.value, toExclusive);
      if candidate.Some? && !TextLess(candidate.value, fromInclusive) && TextLess(candidate.value, toExclusive) {
        occurrences := occurrences + [candidate.value];
      }
      month := month + 1;
      if month > 12 {
        month, year := 1, year + 1;
      }
      if year > 9999 {
        break;
      }
    }
    if guard == 0 {
      PaydaysEmpty(first, end, lo, MonthOf(end), paydayDay);
    }
  }

  lemma PaydaysEmpty(from: int, to: int, lo: int, hi: int, paydayDay: int)
    requires hi < lo
    ensures Paydays(from, to, lo, hi, paydayDay) == [] && Paydays(from, to, lo, lo - 1, paydayDay) == []
  {
  }

  lemma {:induction false} PaydaysNext(from: int, to: int, lo: int, hi: int, paydayDay: int)
    requires lo <= hi
    ensures var day := Clamped(hi, paydayDay);
      Paydays(from, to, lo, hi, paydayDay)
      == Paydays(from, to, lo, hi - 1, paydayDay) + if from <= day < to then [day] else []
    decreases hi - lo
  {
    hide Clamped;
    if lo < hi {
      PaydaysNext(from, to, lo + 1, hi, paydayDay);
    }
  }

  lemma RealFields(c: Civil)
    requires Real(c)
    ensures 1 <= c.month <= 12 && 1 <= c.year <= 9999
  {
  }

  lemma {:induction false} CandidateIsClampedDay(year: int, month: int, paydayDay: int)
    requires 1 <= year <= 9999 && 1 <= month <= 12 && 1 <= paydayDay <= 31
    ensures 1 <= LastDay(year, month - 1) <= 31
    ensures RealDay(Clamped(12 * year + month - 1, paydayDay))
    ensures CivilToString(Civil(year, month, Min(paydayDay, LastDay(year, month - 1))))
         == Some(DayText(Clamped(12 * year + month - 1, paydayDay)))
  {
    hide First, ParseCivil, Text, MonthOf, MakeDay, LastDay, Length, DateOf;
    RealDays(year, month);
    var target := 12 * year + month - 1;
    var c := Civil(year, month, Min(paydayDay, LastDay(year, month - 1)));
    MakeDayIsMonthDay(year, month - 1, c.day);
    CivilOfDayNumber(c);
    CivilToStringIsText(c);
  }
}
