/** The due list of a window, sorted, and grouped around the next payday. */
module PaydayTimeline {
  import opened Prelude
  import opened Calendar
  import opened CivilText
  import opened PlanningTime
  import opened BillingCalendar
  import opened Recurrence
  import opened DueLists
  import opened StableSort
  import opened Predictions
  import opened WorkspaceAggregation
  import opened DueEnumeration

  // ----- The sorted list -----

  /** By date text, then by id. A full tie is kept in the order of the list. */
  predicate Earlier(a: Charge<string>, b: Charge<string>) {
    TextLess(a.date, b.date) || (a.date == b.date && TextLess(a.item.id, b.item.id))
  }

  lemma EarlierIsAnOrder()
    ensures WeakOrder(Earlier)
  {
    hide TextLess;
    forall a, b | Earlier(a, b)
      ensures !Earlier(b, a)
    {
      TextLessTotal(a.date, b.date);
      TextLessTotal(a.item.id, b.item.id);
    }
    forall a, b, c | !Earlier(a, b) && !Earlier(b, c)
      ensures !Earlier(a, c)
    {
      NotEarlierTransitive(a, b, c);
    }
  }

  lemma NotLessTransitive(a: string, b: string, c: string)
    requires !TextLess(a, b) && !TextLess(b, c)
    ensures !TextLess(a, c) && (a == c ==> a == b)
  {
    hide TextLess;
    TextLessTotal(a, b);
    TextLessTotal(b, c);
    if a != b && b != c {
      TextLessTransitive(c, b, a);
      TextLessTotal(a, c);
    }
  }

  lemma NotEarlierTransitive(a: Charge<string>, b: Charge<string>, c: Charge<string>)
    requires !Earlier(a, b) && !Earlier(b, c)
    ensures !Earlier(a, c)
  {
    hide TextLess;
    NotLessTransitive(a.date, b.date, c.date);
    if a.date == c.date {
      NotLessTransitive(a.item.id, b.item.id, c.item.id);
    }
  }

  function EntriesOf(c: Cost, from: Civil, until: string): seq<Charge<string>> {
    if Scheduled(c) then Entries(c, Enumerated(ScheduleOf(c), NextStep(ScheduleOf(c), UtcDayOf(from)), until, OCCURRENCE_LIMIT), from)
    else []
  }

  function AllEntries(items: seq<Cost>, from: Civil, until: string): seq<Charge<string>> {
    if items == [] then [] else AllEntries(items[..|items| - 1], from, until) + EntriesOf(items[|items| - 1], from, until)
  }

  method EnumerateDueOccurrences(items: seq<Cost>, from: string, untilExclusive: string)
    returns (occurrences: seq<Charge<string>>, unknownCount: nat)
    ensures ParseCivil(from).None? ==> occurrences == [] && unknownCount == 0
    ensures ParseCivil(from).Some? ==>
      occurrences == Sort(AllEntries(items, ParseCivil(from).value, untilExclusive), Earlier)
          && unknownCount == Unknown(items)
  {
    hide ParseCivil, Exact, Sort, EntriesOf, UtcDayOf;
    occurrences, unknownCount := [], 0;
    var base := ToLocalNoon(from);
    if base.None? {
      return;
    }
    ParsedIsText(from);
    hide Real;
    for i := 0 to |items|
      invariant occurrences == AllEntries(items[..i], ParseCivil(from).value, untilExclusive)
      invariant unknownCount == Unknown(items[..i])
    {
      assert items[..i + 1][..i] == items[..i];
      var entries, unknown := EnumerateItem(items[i], ParseCivil(from).value, base.value, untilExclusive);
      occurrences := occurrences + entries;
      unknownCount := unknownCount + if unknown then 1 else 0;
    }
    assert items[..|items|] == items;
    occurrences := Sort(occurrences, Earlier);
  }

  /** One turn of the loop over the costs. */
  method EnumerateItem(item: Cost, from: Civil, base: int, untilExclusive: string) returns (entries: seq<Charge<string>>, unknown: bool)
    requires base == UtcDayOf(from) && Real(from)
    ensures entries == EntriesOf(item, from, untilExclusive) && unknown == Unscheduled(item)
  {
    hide *;
    entries, unknown := [], false;
    ItemEntries(item, from, untilExclusive);
    if item.amount <= 0 {
      return;
    }
    BaseIsLate(from);
    var due := ComputeNextDueDate(item, base);
    if due.None? {
      unknown := true;
      return;
    }
    ghost var s := ScheduleOf(item);
    ghost var k := NextStep(s, base);
    NextDueIsOcc(s, base);
    var guard := 0;
    ghost var rest := Enumerated(s, k, untilExclusive, OCCURRENCE_LIMIT);
    while guard < OCCURRENCE_LIMIT
      invariant 0 <= guard <= OCCURRENCE_LIMIT
      invariant due == Some(Occ(s, k)) && rest == Enumerated(s, k, untilExclusive, OCCURRENCE_LIMIT - guard)
      invariant entries + Entries(item, rest, from) == EntriesOf(item, from, untilExclusive)
      decreases OCCURRENCE_LIMIT - guard
    {
      OneEntry(item, s, k, from, untilExclusive, OCCURRENCE_LIMIT - guard);
      var civil := ToCivil(due.value);
      if !TextLess(civil, untilExclusive) {
        break;
      }
      entries := entries + [Charge(item, civil, DaysUntil(due.value, from))];
      rest := rest[1..];
      var next := AddCivilDays(civil, 1);
      if next.None? {
        break;
      }
      var cursor := ToLocalNoon(next.value);
      due := ComputeNextDueDate(item, cursor.value);
      guard, k := guard + 1, k + 1;
    }
    if guard == OCCURRENCE_LIMIT {
      EnumeratedUnfolds(s, k, untilExclusive, 0);
    }
    NoEntries(item, from);
  }

  lemma {:induction false} OneEntry(c: Cost, s: Schedule, k: nat, from: Civil, until: string, fuel: nat)
    requires Recurs(s) && fuel > 0
    ensures Writable(Occ(s, k))
    ensures var rest, civil := Enumerated(s, k, until, fuel), ToCivil(Occ(s, k));
      if !TextLess(civil, until) then rest == []
      else
        && rest != []
        && Entries(c, rest, from) == [Charge(c, civil, DaysUntil(Occ(s, k), from))] + Entries(c, rest[1..], from)
        && (AddCivilDays(civil, 1).None? ==> rest[1..] == [])
        && (AddCivilDays(civil, 1).Some? ==>
              && rest[1..] == Enumerated(s, k + 1, until, fuel - 1)
              && ToLocalNoon(AddCivilDays(civil, 1).value) == Some(Occ(s, k) + 1)
              && DateOnly(Occ(s, k) + 1) == Occ(s, k) + 1 && NextDue(s, Occ(s, k) + 1) == Occ(s, k + 1))
  {
    hide *;
    var day := Occ(s, k);
    OccurrenceIsRecent(s, k);
    RecentIsWritable(day);
    EnumeratedUnfolds(s, k, until, fuel);
    var rest := Enumerated(s, k, until, fuel);
    if rest != [] {
      FirstEntry(c, rest, from);
      if AddCivilDays(ToCivil(day), 1).Some? {
        NextNoon(s, k);
      }
    }
  }

  lemma ItemEntries(c: Cost, from: Civil, until: string)
    ensures Scheduled(c) <==> c.amount > 0 && Exact(c)
    ensures Unscheduled(c) <==> c.amount > 0 && !Exact(c)
    ensures Exact(c) ==> Recurs(ScheduleOf(c))
    ensures EntriesOf(c, from, until)
         == if Scheduled(c) then Entries(c, Enumerated(ScheduleOf(c), NextStep(ScheduleOf(c), UtcDayOf(from)), until, OCCURRENCE_LIMIT), from) else []
  {
    hide Exact, ScheduleOf, Recurs, Enumerated, Entries, NextStep;
  }

  lemma NextDueIsOcc(s: Schedule, base: int)
    requires Recurs(s)
    ensures NextDue(s, base) == Occ(s, NextStep(s, base))
  {
    hide Recurs, Occ, NextStep;
  }

  lemma {:induction false} EnumeratedUnfolds(s: Schedule, k: nat, until: string, fuel: nat)
    requires Recurs(s)
    ensures Writable(Occ(s, k))
    ensures Enumerated(s, k, until, fuel)
         == if fuel == 0 || !TextLess(ToCivil(Occ(s, k)), until) then []
            else [Occ(s, k)] + if AddCivilDays(ToCivil(Occ(s, k)), 1).None? then [] else Enumerated(s, k + 1, until, fuel - 1)
  {
    hide Recurs, Occ, TextLess, ToCivil, AddCivilDays, Writable;
    OccurrenceIsRecent(s, k);
    RecentIsWritable(Occ(s, k));
  }

  lemma FirstEntry(c: Cost, days: seq<int>, from: Civil)
    requires days != [] && forall i :: 0 <= i < |days| ==> Writable(days[i])
    ensures Entries(c, days, from) == [Charge(c, ToCivil(days[0]), DaysUntil(days[0], from))] + Entries(c, days[1..], from)
  {
    hide ToCivil, DaysUntil, Writable;
  }

  lemma NoEntries(c: Cost, from: Civil)
    ensures Entries(c, [], from) == []
  {
  }

  /** The starting day is after the year 99, so taking its date again leaves it. */
  lemma {:induction false} BaseIsLate(from: Civil)
    requires Real(from)
    ensures DateOnly(UtcDayOf(from)) == UtcDayOf(from)
  {
    hide MonthOf, DateOf, Length, First, MakeDay, DateOnly;
    var c := Civil(FullYear(from.year), from.month, from.day);
    QuirkKeepsLength(from.year, from.month - 1);
    CivilOfDayNumber(c);
    DateOnlyIsDay(UtcDayOf(from));
  }

  lemma {:induction false} NextNoon(s: Schedule, k: nat)
    requires Recurs(s) && Writable(Occ(s, k))
    requires AddCivilDays(ToCivil(Occ(s, k)), 1).Some?
    ensures ToLocalNoon(AddCivilDays(ToCivil(Occ(s, k)), 1).value) == Some(Occ(s, k) + 1)
    ensures DateOnly(Occ(s, k) + 1) == Occ(s, k) + 1 && NextDue(s, Occ(s, k) + 1) == Occ(s, k + 1)
  {
    hide *;
    var day := Occ(s, k);
    NextDayText(day);
    DueAfterOccurrence(s, k);
    LaterIsWritable(day);
    LocalNoonOfText(day + 1);
  }

  lemma {:induction false} LaterIsWritable(day: int)
    requires Writable(day)
    ensures Writable(day + 1)
  {
    hide MonthOf, DateOf;
    MonthOfMonotone(day, day + 1);
  }

  // ----- Agreement -----

  /** The entries are the dues, in the same order, with their dates as texts. */
  ghost predicate AreEntries(entries: seq<Charge<string>>, dues: seq<Due>, from: Civil) {
    && |entries| == |dues|
    && forall i :: 0 <= i < |dues| ==>
         Writable(dues[i].day) && entries[i] == Charge(dues[i].item, ToCivil(dues[i].day), DaysUntil(dues[i].day, from))
  }

  lemma {:induction false} AreEntriesJoin(a: seq<Charge<string>>, b: seq<Charge<string>>, x: seq<Due>, y: seq<Due>, from: Civil)
    requires AreEntries(a, x, from) && AreEntries(b, y, from)
    ensures AreEntries(a + b, x + y, from)
  {
    hide Writable, ToCivil, DaysUntil;
  }

  lemma {:induction false} AreEntriesSum(a: seq<Charge<string>>, x: seq<Due>, from: Civil)
    requires AreEntries(a, x, from)
    ensures Sum(a) == Total(x) && |a| == |x|
  {
    hide Writable, ToCivil, DaysUntil;
    if a != [] {
      AreEntriesSum(a[..|a| - 1], x[..|x| - 1], from);
    }
  }

  /** The loop over one cost lists its whole window (see EnumerationExactlyWhen). */
  ghost predicate Complete(c: Cost, from: int, until: int) {
    Scheduled(c) ==>
      var w := Window(ScheduleOf(c), from, until);
      |w| == OCCURRENCE_LIMIT || (|w| < OCCURRENCE_LIMIT && RealDay(NextDue(ScheduleOf(c), until)))
  }

  lemma {:induction false} EntriesAreDues(c: Cost, from: string, until: string)
    requires ParseCivil(from).Some? && ParseCivil(until).Some?
    requires ParseCivil(from).value.year >= 100 && DayOf(from) <= DayOf(until) && Complete(c, DayOf(from), DayOf(until))
    ensures AreEntries(EntriesOf(c, ParseCivil(from).value, until), DuesOf(c, DayOf(from), DayOf(until)), ParseCivil(from).value)
  {
    hide ParseCivil, Scheduled, ScheduleOf, Recurs, Occ, NextStep, NextDue, Enumerated, Window, UtcDayOf, ToCivil,
      DaysUntil, Writable, RealDay, DayNumber;
    if Scheduled(c) {
      ScheduledIsExact(c);
      ParsedIsText(from);
      UtcDayIsDay(ParseCivil(from).value);
      EnumerationExactlyWhen(ScheduleOf(c), from, until);
    }
  }

  lemma {:induction false} ScheduledIsExact(c: Cost)
    requires Scheduled(c)
    ensures Exact(c) && Recurs(ScheduleOf(c))
  {
    hide Exact, ScheduleOf, Recurs;
  }

  /** The enumeration lists exactly the window's dues. */
  lemma {:induction false} EnumerationListsTheDues(items: seq<Cost>, from: string, until: string)
    requires ParseCivil(from).Some? && ParseCivil(until).Some?
    requires ParseCivil(from).value.year >= 100 && DayOf(from) <= DayOf(until)
    requires forall c :: c in items ==> Complete(c, DayOf(from), DayOf(until))
    ensures AreEntries(AllEntries(items, ParseCivil(from).value, until), Dues(items, DayOf(from), DayOf(until)), ParseCivil(from).value)
  {
    hide ParseCivil, Complete, DayOf, EntriesOf, DuesOf, Writable, ToCivil, DaysUntil;
    if items != [] {
      var some, c := items[..|items| - 1], items[|items| - 1];
      EnumerationListsTheDues(some, from, until);
      EntriesAreDues(c, from, until);
      AreEntriesJoin(AllEntries(some, ParseCivil(from).value, until), EntriesOf(c, ParseCivil(from).value, until),
        Dues(some, DayOf(from), DayOf(until)), DuesOf(c, DayOf(from), DayOf(until)), ParseCivil(from).value);
    }
  }

  /** Up to the year 9989 every next due date still has a date text. */
  lemma {:induction false} DueBeforeYear10000(s: Schedule, end: int)
    requires Recurs(s) && CivilOf(end).year <= 9989
    ensures RealDay(NextDue(s, end))
  {
    hide Occ, RealDay, MonthOf, CivilOf, First, NextStep, Recurs;
    var k := NextStep(s, end);
    RealYears(Occ(s, k));
    OccurrenceIsRecent(s, k);
    StepInMonths(s, k);
    YearAndMonth(Occ(s, k));
    YearAndMonth(end);
    if k > 0 {
      MonthOfMonotone(Occ(s, k - 1), end);
    }
  }

  lemma {:induction false} WithinThirtyDaysComplete(c: Cost, from: int)
    requires CivilOf(from + WINDOW_DAYS).year <= 9989
    ensures Complete(c, from, from + WINDOW_DAYS)
  {
    hide Scheduled, ScheduleOf, Recurs, Window, NextDue, RealDay, CivilOf;
    if Scheduled(c) {
      ScheduledIsExact(c);
      AtMostTwo(ScheduleOf(c), from);
      DueBeforeYear10000(ScheduleOf(c), from + WINDOW_DAYS);
    }
  }

  /** On any Korean day of the years 100 to 9989 the three computations of the next 30 days rest on the same dues:
      the budget counts and adds them up, the repeated next-due search is their list in order of days left, and the
      enumeration of the window's texts is that list written as texts. */
  lemma {:induction false} ThreeSummariesAgree(monthlyIncome: int, items: seq<Cost>, asOf: int)
    requires CivilOf(KstDay(asOf)).year >= 100 && CivilOf(KstDay(asOf) + WINDOW_DAYS).year <= 9989
    ensures KstThirtyDayWindow(asOf).Some? && WindowStart(KstDay(asOf)) == KstDay(asOf)
    ensures var today, window, budget := KstDay(asOf), KstThirtyDayWindow(asOf).value, BudgetOn(monthlyIncome, items, KstDay(asOf));
      var dues := Dues(items, today, today + WINDOW_DAYS);
      && DateOnly(today) == today && ParseCivil(window.fromDate) == Some(CivilOf(today))
      && var entries := AllEntries(items, CivilOf(today), window.untilDateExclusive);
         && AreEntries(entries, dues, CivilOf(today))
         && budget.dueOccurrenceCount == |dues| == |entries| <= 2 * Known(items)
         && budget.unknownScheduleCount == Unknown(items)
         && (budget.thirtyDayDue.None? <==> Known(items) == 0 && Unknown(items) > 0)
         && (budget.thirtyDayDue.Some? ==> budget.thirtyDayDue.value == Total(dues) == Sum(entries))
         && SearchSummary(items, today) == DueSummary(Sort(Counted(dues, today), Sooner), Total(dues), Unknown(items))
  {
    hide *;
    var today := KstDay(asOf);
    YearsOfTheWindow(asOf);
    var window := KstThirtyDayWindow(asOf).value;
    DateOnlyIsDay(today);
    DateOfText(window.fromDate, today);
    forall c | c in items
      ensures Complete(c, today, today + WINDOW_DAYS)
    {
      WithinThirtyDaysComplete(c, today);
    }
    EnumerationListsTheDues(items, window.fromDate, window.untilDateExclusive);
    AreEntriesSum(AllEntries(items, CivilOf(today), window.untilDateExclusive), Dues(items, today, today + WINDOW_DAYS), CivilOf(today));
    AtMostTwoEach(items, today);
    BudgetFields(monthlyIncome, items, today);
    SearchSummaryIsDues(items, today);
  }

  lemma {:induction false} YearsOfTheWindow(asOf: int)
    requires CivilOf(KstDay(asOf)).year >= 100 && CivilOf(KstDay(asOf) + WINDOW_DAYS).year <= 9989
    ensures var today, w := KstDay(asOf), KstThirtyDayWindow(asOf);
      && w.Some? && WindowStart(today) == today
      && ParseCivil(w.value.fromDate).Some? && DayOf(w.value.fromDate) == today
      && ParseCivil(w.value.untilDateExclusive).Some? && DayOf(w.value.untilDateExclusive) == today + WINDOW_DAYS
  {
    hide MonthOf, DateOf, First, ParseCivil, KstThirtyDayWindow;
    var today := KstDay(asOf);
    LaterYear(today, today + WINDOW_DAYS);
    YearsInTime(today);
    KstWindowMeaning(asOf);
  }

  lemma {:induction false} DateOfText(s: string, day: int)
    requires ParseCivil(s).Some? && DayOf(s) == day
    ensures ParseCivil(s) == Some(CivilOf(day))
  {
    hide MonthOf, DateOf, Length, MakeDay, ParseCivil, Text;
    ParsedIsText(s);
    CivilOfDayNumber(ParseCivil(s).value);
  }

  lemma BudgetFields(monthlyIncome: int, items: seq<Cost>, today: int)
    ensures var b, dues := BudgetOn(monthlyIncome, items, today), Dues(items, today, today + WINDOW_DAYS);
      && WINDOW_DAYS == 30 && b.dueOccurrenceCount == |dues| && b.unknownScheduleCount == Unknown(items)
      && b.thirtyDayDue == if Known(items) == 0 && Unknown(items) > 0 then None else Some(Total(dues))
  {
    hide Dues, Known, Unknown, Total, MonthlyNormalized;
  }
}
