/** The charges of the next 30 days, found by asking for the next due date again and again. */
module Predictions {
  import opened Prelude
  import opened Calendar
  import opened CivilText
  import opened Recurrence
  import opened DueLists
  import opened StableSort

  /** One charge of a cost, on a date in the form its list uses. */
  datatype Charge<D> = Charge(item: Cost, date: D, daysUntil: int)

  function Sum<D>(s: seq<Charge<D>>): int {
    if s == [] then 0 else Sum(s[..|s| - 1]) + s[|s| - 1].item.amount
  }

  lemma {:induction false} SumOfInsert<D>(s: seq<Charge<D>>, x: Charge<D>, before: (Charge<D>, Charge<D>) -> bool)
    ensures Sum(Insert(s, x, before)) == Sum(s) + x.item.amount
  {
    if s != [] && before(x, s[|s| - 1]) {
      SumOfInsert(s[..|s| - 1], x, before);
    } else {
      assert (s + [x])[..|s|] == s;
    }
  }

  lemma {:induction false} SumOfSort<D>(s: seq<Charge<D>>, before: (Charge<D>, Charge<D>) -> bool)
    ensures Sum(Sort(s, before)) == Sum(s)
  {
    if s != [] {
      SumOfSort(s[..|s| - 1], before);
      SumOfInsert(Sort(s[..|s| - 1], before), s[|s| - 1], before);
    }
  }

  predicate Sooner(a: Charge<int>, b: Charge<int>) {
    a.daysUntil < b.daysUntil
  }

  function Counted(dues: seq<Due>, base: int): (r: seq<Charge<int>>)
    ensures |r| == |dues| && forall i :: 0 <= i < |r| ==> r[i] == Charge(dues[i].item, dues[i].day, dues[i].day - base)
  {
    seq(|dues|, i requires 0 <= i < |dues| => Charge(dues[i].item, dues[i].day, dues[i].day - base))
  }

  lemma {:induction false} SumOfCounted(dues: seq<Due>, base: int)
    ensures Sum(Counted(dues, base)) == Total(dues)
  {
    if dues != [] {
      SumOfCounted(dues[..|dues| - 1], base);
      assert Counted(dues, base)[..|dues| - 1] == Counted(dues[..|dues| - 1], base);
    }
  }

  // ----- The repeated search -----

  /** Asking for the next due date from a day on, and then from the day after each one found, while before the end. */
  function SearchFrom(s: Schedule, day: int, end: int): seq<int>
    requires Recurs(s)
    decreases end - NextDue(s, day)
  {
    hide *;
    DueAfterDue(s, day);
    if NextDue(s, day) >= end then [] else [NextDue(s, day)] + SearchFrom(s, DateOnly(NextDue(s, day) + 1), end)
  }

  function Searched(items: seq<Cost>, day: int, end: int): seq<Due> {
    if items == [] then []
    else
      var c := items[|items| - 1];
      Searched(items[..|items| - 1], day, end) + if Scheduled(c) then Tag(c, SearchFrom(ScheduleOf(c), day, end)) else []
  }

  datatype DueSummary = DueSummary(dues: seq<Charge<int>>, total: int, unknownCount: nat)

  /** The next 30 days by repeated search: the charges found, soonest first, their sum, and the unknown schedules. */
  function SearchSummary(items: seq<Cost>, from: int): DueSummary {
    var base := DateOnly(from);
    var dues := Sort(Counted(Searched(items, base, base + 30), base), Sooner);
    DueSummary(dues, Sum(dues), Unknown(items))
  }

  lemma {:induction false} DueAfterDue(s: Schedule, day: int)
    requires Recurs(s)
    ensures var due := NextDue(s, day);
      due >= day && DateOnly(due + 1) == due + 1 && NextStep(s, due + 1) == NextStep(s, day) + 1 && NextDue(s, due + 1) > due
  {
    hide Occ, DateOnly, NextStep;
    DueAfterOccurrence(s, NextStep(s, day));
    NextAfterOccurrence(s, NextStep(s, day));
    NextDueIsLeast(s, day, NextDue(s, day));
  }

  lemma {:induction false} LowerEnd(s: Schedule, n: nat, from: int, later: int, end: int)
    requires Recurs(s) && from <= later <= Occ(s, n)
    ensures OccurrencesFrom(s, n, from, end) == OccurrencesFrom(s, n, later, end)
    decreases Max(0, end - Occ(s, n))
  {
    hide Occ;
    if Occ(s, n) < end {
      OccIncreases(s, n, n + 1);
      LowerEnd(s, n + 1, from, later, end);
    }
  }

  /** The repeated search finds exactly the window. */
  lemma {:induction false} SearchFindsWindow(s: Schedule, day: int, end: int)
    requires Recurs(s)
    ensures SearchFrom(s, day, end) == Window(s, day, end)
    decreases end - NextDue(s, day)
  {
    hide Occ, NextStep, DateOnly, Window, OccurrencesFrom;
    WindowFromNext(s, day, end);
    var k, due := NextStep(s, day), NextDue(s, day);
    DueAfterDue(s, day);
    OneStep(s, k, day, end);
    if due < end {
      SearchFindsWindow(s, due + 1, end);
      WindowFromNext(s, due + 1, end);
      LowerEnd(s, k + 1, day, due + 1, end);
    }
  }

  lemma OneStep(s: Schedule, k: nat, day: int, end: int)
    requires Recurs(s) && day <= Occ(s, k)
    ensures OccurrencesFrom(s, k, day, end) == if Occ(s, k) >= end then [] else [Occ(s, k)] + OccurrencesFrom(s, k + 1, day, end)
  {
    hide Occ;
  }

  lemma {:induction false} SearchedAreDues(items: seq<Cost>, day: int, end: int)
    ensures Searched(items, day, end) == Dues(items, day, end)
  {
    hide Exact, ScheduleOf, SearchFrom, Window;
    if items != [] {
      SearchedAreDues(items[..|items| - 1], day, end);
      var c := items[|items| - 1];
      if Scheduled(c) {
        SearchFindsWindow(ScheduleOf(c), day, end);
      }
    }
  }

  /** So the summary by repeated search is the due list, in order of days left, with its total. */
  lemma {:induction false} SearchSummaryIsDues(items: seq<Cost>, from: int)
    ensures var base := DateOnly(from);
      var dues := Dues(items, base, base + 30);
      SearchSummary(items, from) == DueSummary(Sort(Counted(dues, base), Sooner), Total(dues), Unknown(items))
  {
    hide DateOnly, Dues, Searched, Sort, Sum, Total, Unknown;
    var base := DateOnly(from);
    SearchedAreDues(items, base, base + 30);
    SumOfCounted(Dues(items, base, base + 30), base);
    SumOfSort(Counted(Dues(items, base, base + 30), base), Sooner);
  }

  // ----- The program's loops -----

  /** Days left until the next due date; 0 is today. */
  method GetDaysUntilDue(c: Cost, from: int) returns (days: Option<int>)
    ensures days == if Exact(c) then Some(NextDue(ScheduleOf(c), DateOnly(from)) - DateOnly(from)) else None
    ensures days.Some? ==> days.value >= 0
  {
    hide Exact, ScheduleOf, DateOnly, NextStep, Occ, Recurs;
    var due := ComputeNextDueDate(c, from);
    days := if due.None? then None else Some(due.value - DateOnly(from));
  }

  method BuildThirtyDayDueSummary(items: seq<Cost>, from: int) returns (dues: seq<Charge<int>>, total: int, unknownCount: nat)
    ensures DueSummary(dues, total, unknownCount) == SearchSummary(items, from)
    ensures dues == Sort(Counted(Dues(items, DateOnly(from), DateOnly(from) + 30), DateOnly(from)), Sooner)
    ensures total == Total(Dues(items, DateOnly(from), DateOnly(from) + 30))
    ensures unknownCount == Unknown(items)
  {
    hide Exact, DateOnly, DuesOf, Total, Sort, Sum, SearchSummary;
    SearchSummaryIsDues(items, from);
    var base := DateOnly(from);
    var end := base + 30;
    dues, unknownCount := [], 0;
    for i := 0 to |items|
      invariant dues == Counted(Dues(items[..i], base, end), base)
      invariant unknownCount == Unknown(items[..i])
    {
      var item := items[i];
      assert items[..i + 1][..i] == items[..i];
      CountedJoins(Dues(items[..i], base, end), DuesOf(item, base, end), base);
      var charges, unknown := ChargesOf(item, from, base, end);
      dues := dues + charges;
      unknownCount := unknownCount + if unknown then 1 else 0;
    }
    assert items[..|items|] == items;
    SumOfCounted(Dues(items, base, end), base);
    SumOfSort(dues, Sooner);
    dues := Sort(dues, Sooner);
    total := Sum(dues);
  }

  /** One turn of the loop over the costs: the charges to append, and whether the schedule is unknown. */
  method ChargesOf(item: Cost, from: int, base: int, end: int) returns (charges: seq<Charge<int>>, unknown: bool)
    requires base == DateOnly(from)
    ensures charges == Counted(DuesOf(item, base, end), base) && unknown == Unscheduled(item)
  {
    hide *;
    charges, unknown := [], false;
    ListedCharges(item, base, end);
    if item.amount <= 0 {
      return;
    }
    var due := ComputeNextDueDate(item, from);
    if due.None? {
      unknown := true;
      return;
    }
    ghost var s := ScheduleOf(item);
    ghost var k := NextStep(s, base);
    while due.value < end
      invariant due == Some(Occ(s, k)) && Occ(s, k) >= base
      invariant charges + Counted(Tag(item, OccurrencesFrom(s, k, base, end)), base) == Counted(DuesOf(item, base, end), base)
      decreases end - due.value
    {
      OneMore(item, s, k, base, end);
      DueAfterOccurrence(s, k);
      charges := charges + [Charge(item, due.value, due.value - base)];
      due := ComputeNextDueDate(item, due.value + 1);
      k := k + 1;
    }
    NoMore(item, s, k, base, end);
  }

  lemma {:induction false} ListedCharges(c: Cost, base: int, end: int)
    ensures !Scheduled(c) ==> Counted(DuesOf(c, base, end), base) == []
    ensures Scheduled(c) <==> c.amount > 0 && Exact(c)
    ensures Unscheduled(c) <==> c.amount > 0 && !Exact(c)
    ensures Exact(c) ==> NextDue(ScheduleOf(c), base) == Occ(ScheduleOf(c), NextStep(ScheduleOf(c), base))
    ensures Scheduled(c) ==>
      Counted(DuesOf(c, base, end), base) == Counted(Tag(c, OccurrencesFrom(ScheduleOf(c), NextStep(ScheduleOf(c), base), base, end)), base)
  {
    hide Exact, ScheduleOf, Occ, Window, OccurrencesFrom, NextStep, Recurs;
    if Scheduled(c) {
      WindowFromNext(ScheduleOf(c), base, end);
    }
  }

  lemma {:induction false} DueAfterOccurrence(s: Schedule, k: nat)
    requires Recurs(s)
    ensures DateOnly(Occ(s, k) + 1) == Occ(s, k) + 1 && NextDue(s, Occ(s, k) + 1) == Occ(s, k + 1) > Occ(s, k)
  {
    hide Occ, DateOnly, NextStep;
    NextAfterOccurrence(s, k);
    OccIncreases(s, k, k + 1);
    OccurrenceIsRecent(s, k);
  }

  lemma CountedJoins(a: seq<Due>, b: seq<Due>, base: int)
    ensures Counted(a + b, base) == Counted(a, base) + Counted(b, base)
  {
  }

  lemma {:induction false} OneMore(c: Cost, s: Schedule, k: nat, base: int, end: int)
    requires Recurs(s) && base <= Occ(s, k) < end
    ensures Counted(Tag(c, OccurrencesFrom(s, k, base, end)), base)
         == [Charge(c, Occ(s, k), Occ(s, k) - base)] + Counted(Tag(c, OccurrencesFrom(s, k + 1, base, end)), base)
  {
    hide Occ;
  }

  lemma {:induction false} NoMore(c: Cost, s: Schedule, k: nat, base: int, end: int)
    requires Recurs(s) && Occ(s, k) >= end
    ensures Counted(Tag(c, OccurrencesFrom(s, k, base, end)), base) == []
  {
    hide Occ;
  }

  /** Anchors start in 1900, so a local midnight after an occurrence is taken as it stands. */
  lemma {:induction false} OccurrenceIsRecent(s: Schedule, n: nat)
    requires Recurs(s)
    ensures CivilOf(Occ(s, n)).year >= 1900 && DateOnly(Occ(s, n) + 1) == Occ(s, n) + 1
  {
    hide Occ, MonthOf, First, DateOnly, CivilOf;
    OccInMonth(s, n);
    assert n * s.period >= 0;
    RecentYear(Occ(s, n));
    RecentYear(Occ(s, n) + 1);
    MonthOfMonotone(Occ(s, n), Occ(s, n) + 1);
    DateOnlyIsDay(Occ(s, n) + 1);
  }

  lemma RecentYear(day: int)
    ensures MonthOf(day) >= 1900 * 12 ==> CivilOf(day).year >= 1900
  {
    hide MonthOf, DateOf;
  }

  /** The list comes soonest first. */
  lemma SoonestFirst(items: seq<Cost>, base: int)
    ensures Sorted(Sort(Counted(Dues(items, base, base + 30), base), Sooner), Sooner)
  {
    assert WeakOrder(Sooner);
    SortSorts(Counted(Dues(items, base, base + 30), base), Sooner);
  }
}
