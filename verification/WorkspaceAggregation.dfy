/** The 30-day window in Korean time, the budget summary of one ledger, and the sum over ledgers. */
module WorkspaceAggregation {
  import opened Prelude
  import opened Calendar
  import opened CivilText
  import opened BillingCalendar
  import opened PlanningTime
  import opened Recurrence
  import opened DueLists

  const WINDOW_DAYS: nat := 30

  datatype KstWindow = KstWindow(fromDate: string, untilDateExclusive: string, start: int, end: int)

  /** The instants a Date object can hold (section 21.4.1.1 of ECMA-262). */
  const MAX_TIME: int := 8_640_000_000_000_000

  predicate InTime(t: int) {
    -MAX_TIME <= t <= MAX_TIME
  }

  /** The years an ISO text writes with four digits; it writes the others with a sign and six (section 21.4.1.32.1 of
      ECMA-262). */
  predicate FourDigitYear(day: int) {
    0 <= CivilOf(day).year <= 9999
  }

  /** Sign, year and month: all that the first ten characters of such a text hold. */
  function MonthText(month: int): string {
    var year := month / 12;
    [if year < 0 then '-' else '+'] + PadStart(Decimal(if year < 0 then -year else year), 6) + "-" + PadStart(Decimal(month % 12 + 1), 2)
  }

  predicate MonthPattern(s: string) {
    |s| == 10 && (s[0] == '+' || s[0] == '-') && AllDigits(s[1..7]) && s[7] == '-' && AllDigits(s[8..10])
  }

  function SignedYear(s: string): int
    requires MonthPattern(s)
  {
    var size: int := Value(s[1..7]);
    if s[0] == '-' then -size else size
  }

  /** The first ten characters of the ISO text of a day's midnight. */
  function IsoDate(day: int): string {
    hide MonthOf, DateOf, Length;
    CivilFieldsFit(day);
    if FourDigitYear(day) then Text(CivilOf(day)) else MonthText(MonthOf(day))
  }

  /** Parsing such a date gives its midnight, and parsing a year and month alone the month's first. */
  function ParseIsoDate(s: string): int
    requires DatePattern(s) || MonthPattern(s)
  {
    if DatePattern(s) then DayNumber(Civil(Value(s[0..4]), Value(s[5..7]), Value(s[8..10]))) * MS_PER_DAY
    else DayNumber(Civil(SignedYear(s), Value(s[8..10]), 1)) * MS_PER_DAY
  }

  /** The day the window of a day starts on: cut to ten characters, a long year leaves no day of the month. */
  function WindowStart(day: int): int {
    if FourDigitYear(day) then day else First(MonthOf(day))
  }

  lemma MonthTextFields(month: int)
    requires -1_000_000 < month / 12 < 1_000_000
    ensures var s, year := MonthText(month), month / 12;
      && !DatePattern(s) && MonthPattern(s)
      && SignedYear(s) == year && Value(s[8..10]) == month % 12 + 1
  {
    hide Value, Decimal, AllDigits;
    var year := month / 12;
    var size := if year < 0 then -year else year;
    Millions();
    FieldText(size, 6);
    FieldText(month % 12 + 1, 2);
    var y, m := PadStart(Decimal(size), 6), PadStart(Decimal(month % 12 + 1), 2);
    var s := MonthText(month);
    assert s[1..7] == y && s[8..10] == m;
    NoLeadingSign(s);
  }

  lemma Millions()
    ensures Pow10(6) == 1_000_000 && Pow10(2) == 100
  {
    assert Pow10(3) == 1000;
    assert Pow10(5) == 100_000;
  }

  lemma NoLeadingSign(s: string)
    requires |s| == 10 && !IsDigit(s[0])
    ensures !DatePattern(s)
  {
    assert !AllDigits(s[0..4]) by {
      assert s[0..4][0] == s[0];
    }
  }

  lemma {:induction false} IsoDateParses(day: int)
    requires -1_000_000 < CivilOf(day).year < 1_000_000
    ensures DatePattern(IsoDate(day)) || MonthPattern(IsoDate(day))
    ensures ParseIsoDate(IsoDate(day)) == WindowStart(day) * MS_PER_DAY
  {
    hide First, MonthOf, Length, MakeDay, Text, Value, DateOf, DatePattern, MonthPattern, MonthText;
    CivilFieldsFit(day);
    if FourDigitYear(day) {
      TextFields(CivilOf(day));
      DayNumberOfCivil(day);
    } else {
      var month := MonthOf(day);
      MonthTextFields(month);
      MakeDayIsMonthDay(month / 12, month % 12, 1);
    }
  }

  /** Every instant a Date can hold is of a year of at most six digits, and every instant of a year of four digits is
      one that a Date can hold. */
  lemma {:induction false} YearsInTime(day: int)
    ensures InTime(day * MS_PER_DAY) ==> -1_000_000 < CivilOf(day).year < 1_000_000
    ensures FourDigitYear(day) ==> -1_000_000 < day < 4_000_000
  {
    hide First, MonthOf, DateOf;
    var month := MonthOf(day);
    EpochFirst();
    if month >= EPOCH_MONTH {
      FirstMonotone(EPOCH_MONTH, month);
    } else {
      FirstMonotone(month + 1, EPOCH_MONTH);
    }
    FirstNext(month);
  }

  lemma EpochFirst()
    ensures First(EPOCH_MONTH) == 0
  {
  }

  /** `kstThirtyDayWindow`: nothing stands for its RangeError. */
  function KstThirtyDayWindow(asOf: int): Option<KstWindow> {
    hide FourDigitYear, IsoDate, ParseIsoDate, DatePattern, MonthPattern, KstDay, CivilOf, WindowStart;
    if !InTime(asOf) || !InTime(asOf + KST_OFFSET) then None
    else
      KstDayInTime(asOf);
      IsoDateParses(KstDay(asOf));
      var fromDate := IsoDate(KstDay(asOf));
      var start := ParseIsoDate(fromDate);
      var end := start + WINDOW_DAYS * MS_PER_DAY;
      if !InTime(start) || !InTime(end) then None
      else Some(KstWindow(fromDate, IsoDate(DayOfTime(end)), start, end))
  }

  lemma {:induction false} KstDayInTime(asOf: int)
    requires InTime(asOf + KST_OFFSET)
    ensures -1_000_000 < CivilOf(KstDay(asOf)).year < 1_000_000
  {
    hide CivilOf, FourDigitYear;
    YearsInTime(KstDay(asOf));
  }

  /** The window is refused exactly when an instant it needs is out of range. It is 30 whole days from the first of them,
      which is the instant's own Korean day if and only if the text of that day's year has four digits or the day is
      the first of its month. From the year 1 on, four-digit texts name the window's ends. */
  lemma {:induction false} KstWindowMeaning(asOf: int)
    ensures var today, w := KstDay(asOf), KstThirtyDayWindow(asOf);
      var first := WindowStart(today);
      && (w.Some? <==> InTime(asOf) && InTime(asOf + KST_OFFSET) && InTime(first * MS_PER_DAY)
                       && InTime((first + WINDOW_DAYS) * MS_PER_DAY))
      && (w.Some? ==>
            && w.value.start == first * MS_PER_DAY && w.value.end == (first + WINDOW_DAYS) * MS_PER_DAY
            && (w.value.start <= asOf + KST_OFFSET < w.value.start + MS_PER_DAY <==> FourDigitYear(today) || CivilOf(today).day == 1)
            && (FourDigitYear(today) && CivilOf(today).year >= 1 ==>
                  ParseCivil(w.value.fromDate).Some? && DayOf(w.value.fromDate) == today)
            && (FourDigitYear(first + WINDOW_DAYS) && CivilOf(first + WINDOW_DAYS).year >= 1 ==>
                  ParseCivil(w.value.untilDateExclusive).Some? && DayOf(w.value.untilDateExclusive) == first + WINDOW_DAYS))
  {
    hide First, MonthOf, Length, MakeDay, Text, ParseIsoDate, DatePattern, MonthPattern, MonthText, ParseCivil, DateOf;
    var today := KstDay(asOf);
    var first := WindowStart(today);
    WholeDays(first + WINDOW_DAYS);
    if FourDigitYear(today) && CivilOf(today).year >= 1 {
      TextNamesDay(today);
    }
    if FourDigitYear(first + WINDOW_DAYS) && CivilOf(first + WINDOW_DAYS).year >= 1 {
      TextNamesDay(first + WINDOW_DAYS);
    }
    FirstIsDayOne(today);
    if InTime(asOf + KST_OFFSET) {
      KstDayInTime(asOf);
      IsoDateParses(today);
    }
  }

  lemma FirstIsDayOne(day: int)
    ensures First(MonthOf(day)) <= day && (First(MonthOf(day)) == day <==> CivilOf(day).day == 1)
  {
    hide First, MonthOf;
  }

  lemma {:induction false} TextNamesDay(day: int)
    requires FourDigitYear(day) && CivilOf(day).year >= 1
    ensures ParseCivil(IsoDate(day)).Some? && DayOf(IsoDate(day)) == day
  {
    hide First, MonthOf, Length, MakeDay, Text, ParseCivil, DateOf;
    DayNumberOfCivil(day);
    ParseIffText(Text(CivilOf(day)), CivilOf(day));
  }

  lemma {:induction false} LaterYear(a: int, b: int)
    requires a <= b
    ensures CivilOf(a).year <= CivilOf(b).year
  {
    hide MonthOf, DateOf;
    MonthOfMonotone(a, b);
  }

  // ----- One ledger -----

  datatype Summary = Summary(
    monthlyIncome: int, monthlyNormalizedExpense: real, fixedCostCount: nat, knownScheduleCount: nat,
    unknownScheduleCount: nat, dueOccurrenceCount: nat, thirtyDayDue: Option<int>)

  function MonthlyNormalized(costs: seq<Cost>): real {
    if costs == [] then 0.0
    else
      var c := costs[|costs| - 1];
      MonthlyNormalized(costs[..|costs| - 1]) + if c.periodMonths > 0.0 then c.amount as real / c.periodMonths else 0.0
  }

  /** Due is unknown, not zero, when no schedule is known and some are not. */
  function DueOrUnknown(known: nat, unknown: nat, due: int): Option<int> {
    if known == 0 && unknown > 0 then None else Some(due)
  }

  function BudgetOn(monthlyIncome: int, costs: seq<Cost>, today: int): Summary {
    var dues := Dues(costs, today, today + WINDOW_DAYS);
    Summary(monthlyIncome, MonthlyNormalized(costs), |costs|, Known(costs), Unknown(costs), |dues|,
            DueOrUnknown(Known(costs), Unknown(costs), Total(dues)))
  }

  method SummarizeWorkspaceBudget(monthlyIncome: int, costs: seq<Cost>, asOf: int) returns (summary: Option<Summary>)
    ensures summary.Some? <==> KstThirtyDayWindow(asOf).Some?
    ensures summary.Some? ==> summary.value == BudgetOn(monthlyIncome, costs, WindowStart(KstDay(asOf)))
  {
    hide MonthOf, Occ, OccurrenceDay, ScheduleOf, OccurrencesFrom, Window, CalendarDate, Recurs, ParseCivil, Text,
      Total, FirstStep, FourDigitYear, KstThirtyDayWindow, Length, DayOf, KstDay, WindowStart, InTime;
    KstWindowMeaning(asOf);
    var window := KstThirtyDayWindow(asOf);
    if window.None? {
      return None;
    }
    var start, end := window.value.start, window.value.end;
    ghost var today := WindowStart(KstDay(asOf));
    assert Total([]) == 0 by {
      TotalOfNothing();
    }
    var monthly, due, known, unknown, occurrences, i := 0.0, 0, 0, 0, 0, 0;
    while i < |costs|
      invariant 0 <= i <= |costs|
      invariant monthly == MonthlyNormalized(costs[..i]) && known == Known(costs[..i]) && unknown == Unknown(costs[..i])
      invariant due == Total(Dues(costs[..i], today, today + WINDOW_DAYS))
          && occurrences == |Dues(costs[..i], today, today + WINDOW_DAYS)|
    {
      var cost := costs[i];
      assert costs[..i + 1][..i] == costs[..i];
      TotalJoins(Dues(costs[..i], today, today + WINDOW_DAYS), DuesOf(cost, today, today + WINDOW_DAYS));
      i := i + 1;
      if cost.periodMonths > 0.0 {
        monthly := monthly + cost.amount as real / cost.periodMonths;
      }
      if cost.amount <= 0 {
        continue;
      }
      if !Exact(cost) {
        unknown := unknown + 1;
        continue;
      }
      known := known + 1;
      var count := CountDue(cost, start, end, today);
      TotalOfTag(cost, Window(ScheduleOf(cost), today, today + WINDOW_DAYS));
      due, occurrences := due + cost.amount * count, occurrences + count;
    }
    assert costs[..i] == costs;
    summary := Some(Summary(monthlyIncome, monthly, |costs|, known, unknown, occurrences, if known == 0
        && unknown > 0 then None else Some(due)));
  }

  /** The occurrences of one cost from the window's start on, until one falls on or after its end. */
  method CountDue(cost: Cost, start: int, end: int, ghost today: int) returns (count: nat)
    requires Exact(cost) && start == today * MS_PER_DAY && end == (today + WINDOW_DAYS) * MS_PER_DAY
    ensures count == |Window(ScheduleOf(cost), today, today + WINDOW_DAYS)|
  {
    hide MonthOf, Occ, OccurrenceDay, CalendarDate, ParseCivil, Text, ScheduleOf, DateOf;
    CalendarDateIsReal(cost.anchor.value);
    var anchor, period, first := ParseCivil(cost.anchor.value).value, cost.periodMonths.Floor, CivilOf(DayOfTime(start));
    ghost var s := ScheduleOf(cost);
    ScheduleFields(cost);
    WholeDays(today);
    var elapsed := (first.year - anchor.year) * 12 + first.month - 1 - (anchor.month - 1);
    assert elapsed == MonthOf(today) - s.month;
    var step := Max(0, elapsed / period);
    assert step == FirstStep(s, today);
    FirstStepIsClose(s, today);
    SkipEarlier(s, 0, step, today, today + WINDOW_DAYS);
    hide FirstStep, Recurs;
    count := 0;
    while true
      invariant step >= 0
      invariant count + |OccurrencesFrom(s, step, today, today + WINDOW_DAYS)| == |Window(s, today, today + WINDOW_DAYS)|
      decreases Max(0, today + WINDOW_DAYS - Occ(s, step))
    {
      OccurrenceDayIsOcc(cost, step);
      var stamp := OccurrenceDay(anchor, period, cost.endOfMonth, step) * MS_PER_DAY;
      OccIncreases(s, step, step + 1);
      if stamp >= end {
        break;
      }
      if stamp >= start {
        count := count + 1;
      }
      step := step + 1;
    }
  }

  lemma {:induction false} ScheduleFields(c: Cost)
    requires Exact(c)
    ensures ParseCivil(c.anchor.value).Some?
    ensures var s, anchor := ScheduleOf(c), ParseCivil(c.anchor.value).value;
      s.month == 12 * anchor.year + anchor.month - 1 && s.period == c.periodMonths.Floor && s.period >= 1
  {
    hide ParseCivil, CalendarDate;
    CalendarDateIsReal(c.anchor.value);
  }

  // ----- All ledgers -----

  datatype Totals = Totals(
    monthlyNormalizedExpense: real, fixedCostCount: nat, knownScheduleCount: nat, unknownScheduleCount: nat,
    dueOccurrenceCount: nat, thirtyDayDue: Option<int>)

  function TotalsOf(s: Summary): Totals {
    Totals(s.monthlyNormalizedExpense, s.fixedCostCount, s.knownScheduleCount, s.unknownScheduleCount, s.dueOccurrenceCount, s.thirtyDayDue)
  }

  function SumOf(summaries: seq<Summary>): Totals {
    if summaries == [] then Totals(0.0, 0, 0, 0, 0, Some(0))
    else
      var rest, s := SumOf(summaries[..|summaries| - 1]), summaries[|summaries| - 1];
      Totals(rest.monthlyNormalizedExpense + s.monthlyNormalizedExpense, rest.fixedCostCount + s.fixedCostCount,
             rest.knownScheduleCount + s.knownScheduleCount, rest.unknownScheduleCount + s.unknownScheduleCount,
             rest.dueOccurrenceCount + s.dueOccurrenceCount,
             Some(rest.thirtyDayDue.value + if s.thirtyDayDue.Some? then s.thirtyDayDue.value else 0))
  }

  function FinishSum(t: Totals): Totals
    requires t.thirtyDayDue.Some?
  {
    t.(thirtyDayDue := DueOrUnknown(t.knownScheduleCount, t.unknownScheduleCount, t.thirtyDayDue.value))
  }

  method SumWorkspaceBudgets(summaries: seq<Summary>) returns (totals: Totals)
    ensures totals == FinishSum(SumOf(summaries))
  {
    totals := Totals(0.0, 0, 0, 0, 0, Some(0));
    var due := 0;
    for i := 0 to |summaries|
      invariant totals.(thirtyDayDue := Some(due)) == SumOf(summaries[..i])
    {
      var s := summaries[i];
      assert summaries[..i + 1][..i] == summaries[..i];
      due := due + if s.thirtyDayDue.Some? then s.thirtyDayDue.value else 0;
      totals := totals.(
        monthlyNormalizedExpense := totals.monthlyNormalizedExpense + s.monthlyNormalizedExpense,
        fixedCostCount := totals.fixedCostCount + s.fixedCostCount,
        knownScheduleCount := totals.knownScheduleCount + s.knownScheduleCount,
        unknownScheduleCount := totals.unknownScheduleCount + s.unknownScheduleCount,
        dueOccurrenceCount := totals.dueOccurrenceCount + s.dueOccurrenceCount);
    }
    assert summaries[..|summaries|] == summaries;
    totals := totals.(thirtyDayDue := if totals.knownScheduleCount == 0
        && totals.unknownScheduleCount > 0 then None else Some(due));
  }

  datatype Ledger = Ledger(monthlyIncome: int, costs: seq<Cost>)

  function BudgetsOn(ledgers: seq<Ledger>, today: int): seq<Summary> {
    seq(|ledgers|, i requires 0 <= i < |ledgers| => BudgetOn(ledgers[i].monthlyIncome, ledgers[i].costs, today))
  }

  function AllCosts(ledgers: seq<Ledger>): seq<Cost> {
    if ledgers == [] then [] else AllCosts(ledgers[..|ledgers| - 1]) + ledgers[|ledgers| - 1].costs
  }

  lemma {:induction false} MonthlyJoins(a: seq<Cost>, b: seq<Cost>)
    ensures MonthlyNormalized(a + b) == MonthlyNormalized(a) + MonthlyNormalized(b)
  {
    if b == [] {
      assert a + b == a;
    } else {
      MonthlyJoins(a, b[..|b| - 1]);
      assert (a + b)[..|a + b| - 1] == a + b[..|b| - 1];
    }
  }

  /** Summing the ledgers' summaries is summarizing all their costs at once, unknown dues included. */
  lemma SumIsSummaryOfAll(ledgers: seq<Ledger>, monthlyIncome: int, today: int)
    ensures FinishSum(SumOf(BudgetsOn(ledgers, today))) == TotalsOf(BudgetOn(monthlyIncome, AllCosts(ledgers), today))
  {
    hide Dues, Known, Unknown, Total, MonthlyNormalized, SumOf, AllCosts;
    SumCollects(ledgers, today);
  }

  lemma {:induction false} SumCollects(ledgers: seq<Ledger>, today: int)
    ensures var all := AllCosts(ledgers);
      var dues := Dues(all, today, today + WINDOW_DAYS);
      SumOf(BudgetsOn(ledgers, today)) == Totals(MonthlyNormalized(all), |all|, Known(all), Unknown(all), |dues|, Some(Total(dues)))
  {
    hide DuesOf, Scheduled, Unscheduled, MonthlyNormalized, Known, Unknown, Dues, Total;
    if ledgers == [] {
      NothingSums(today);
    } else {
      var n := |ledgers| - 1;
      var some, last := AllCosts(ledgers[..n]), ledgers[n].costs;
      var a, b := Dues(some, today, today + WINDOW_DAYS), Dues(last, today, today + WINDOW_DAYS);
      SumCollects(ledgers[..n], today);
      assert BudgetsOn(ledgers, today)[..n] == BudgetsOn(ledgers[..n], today);
      DuesJoin(some, last, today, today + WINDOW_DAYS);
      MonthlyJoins(some, last);
      TotalJoins(a, b);
      if Known(last) == 0 {
        NothingKnownNothingDue(last, today, today + WINDOW_DAYS);
        TotalOfNothing();
      }
    }
  }

  lemma NothingSums(today: int)
    ensures MonthlyNormalized([]) == 0.0 && Known([]) == 0 && Unknown([]) == 0
    ensures Dues([], today, today + WINDOW_DAYS) == [] && Total([]) == 0
  {
  }
}
