/** The due list split into what falls before and after the next payday. */
module PaydayGroups {
  import opened Prelude
  import opened Calendar
  import opened CivilText
  import opened PlanningTime
  import opened BillingCalendar
  import opened Recurrence
  import opened DueLists
  import opened StableSort
  import opened Predictions
  import opened PaydayTimeline

  const MAX_GROUP_TOTAL := 2147483647

  datatype Group = Group(total: Option<int>, overflow: bool, items: seq<Charge<string>>)

  function GroupOf(items: seq<Charge<string>>, hasUnknown: bool): Group {
    var sum := Sum(items);
    var within := -MAX_SAFE_INTEGER <= sum <= MAX_SAFE_INTEGER && sum <= MAX_GROUP_TOTAL;
    if items == [] then Group(if hasUnknown then None else Some(0), false, items)
    else Group(if within then Some(sum) else None, !within, items)
  }

  /** The entries on or before the cut, all of them when there is no payday in the window. */
  function UpTo(s: seq<Charge<string>>, cut: Option<string>): seq<Charge<string>> {
    if s == [] then []
    else
      var rest, last := UpTo(s[..|s| - 1], cut), s[|s| - 1];
      if cut.None? || !TextLess(cut.value, last.date) then rest + [last] else rest
  }

  function Beyond(s: seq<Charge<string>>, cut: Option<string>): seq<Charge<string>> {
    if s == [] then []
    else
      var rest, last := Beyond(s[..|s| - 1], cut), s[|s| - 1];
      if cut.Some? && TextLess(cut.value, last.date) then rest + [last] else rest
  }

  lemma {:induction false} SumJoins<D>(a: seq<Charge<D>>, x: Charge<D>)
    ensures Sum(a + [x]) == Sum(a) + x.item.amount
  {
    assert (a + [x])[..|a|] == a;
  }

  predicate IsBeyond(e: Charge<string>, cut: Option<string>) {
    cut.Some? && TextLess(cut.value, e.date)
  }

  /** Every entry is in exactly one group, on its own side of the payday. */
  lemma {:induction false} GroupsPartition(s: seq<Charge<string>>, cut: Option<string>)
    ensures multiset(UpTo(s, cut)) + multiset(Beyond(s, cut)) == multiset(s)
    ensures forall i :: 0 <= i < |UpTo(s, cut)| ==> !IsBeyond(UpTo(s, cut)[i], cut)
    ensures forall i :: 0 <= i < |Beyond(s, cut)| ==> IsBeyond(Beyond(s, cut)[i], cut)
  {
    hide TextLess;
    if s != [] {
      GroupsPartition(s[..|s| - 1], cut);
      assert s == s[..|s| - 1] + [s[|s| - 1]];
    }
  }

  /** The groups' sums make up the whole. */
  lemma {:induction false} GroupsSum(s: seq<Charge<string>>, cut: Option<string>)
    ensures Sum(UpTo(s, cut)) + Sum(Beyond(s, cut)) == Sum(s)
  {
    hide TextLess, Sum;
    if s == [] {
      NothingSums();
    } else {
      var rest, last := s[..|s| - 1], s[|s| - 1];
      GroupsSum(rest, cut);
      SumJoins(UpTo(rest, cut), last);
      SumJoins(Beyond(rest, cut), last);
      SumJoins(rest, last);
      assert s == rest + [last];
    }
  }

  lemma NothingSums()
    ensures Sum<string>([]) == 0
  {
  }

  /** Without unknown schedules and without overflow, what is due before the payday and what is due after it add up
      to everything due in the window. */
  lemma {:induction false} TotalsAddUp(items: seq<Cost>, from: string, until: string, cut: Option<string>)
    requires ParseCivil(from).Some? && ParseCivil(until).Some?
    requires ParseCivil(from).value.year >= 100 && DayOf(from) <= DayOf(until)
    requires forall c :: c in items ==> Complete(c, DayOf(from), DayOf(until))
    ensures var occurrences := Sort(AllEntries(items, ParseCivil(from).value, until), Earlier);
      var before, after := GroupOf(UpTo(occurrences, cut), Unknown(items) > 0), GroupOf(Beyond(occurrences, cut), Unknown(items) > 0);
      Unknown(items) == 0 && !before.overflow && !after.overflow ==>
        before.total.Some? && after.total.Some?
            && before.total.value + after.total.value == Total(Dues(items, DayOf(from), DayOf(until)))
  {
    hide *;
    var entries := AllEntries(items, ParseCivil(from).value, until);
    var occurrences := Sort(entries, Earlier);
    EnumerationListsTheDues(items, from, until);
    AreEntriesSum(entries, Dues(items, DayOf(from), DayOf(until)), ParseCivil(from).value);
    SumOfSort(entries, Earlier);
    GroupsSum(occurrences, cut);
    GroupTotal(UpTo(occurrences, cut), Unknown(items) > 0);
    GroupTotal(Beyond(occurrences, cut), Unknown(items) > 0);
  }

  /** A group without a total either overflows or is empty among unknown schedules. */
  lemma {:induction false} GroupTotal(items: seq<Charge<string>>, hasUnknown: bool)
    ensures var g := GroupOf(items, hasUnknown);
      && g.items == items
      && (g.total.Some? ==> g.total.value == Sum(items) && g.total.value <= MAX_GROUP_TOTAL)
      && (g.total.None? <==> g.overflow || (items == [] && hasUnknown))
  {
  }

  // ----- The next payday -----

  predicate PaydayOn(x: int, paydayDay: int) {
    x == Clamped(MonthOf(x), paydayDay)
  }

  /** The first payday of a range, or none if the range has none. */
  ghost predicate IsFirstPayday(r: Option<string>, from: int, to: int, paydayDay: int) {
    match r
    case None => forall x :: from <= x < to ==> !PaydayOn(x, paydayDay)
    case Some(text) =>
      && ParseCivil(text).Some? && from <= DayOf(text) < to && PaydayOn(DayOf(text), paydayDay)
      && forall x :: from <= x < to && PaydayOn(x, paydayDay) ==> DayOf(text) <= x
  }

  lemma {:induction false} PaydaysSplit(from: int, to: int, lo: int, middle: int, hi: int, paydayDay: int)
    requires lo - 1 <= middle <= hi
    ensures Paydays(from, to, lo, hi, paydayDay) == Paydays(from, to, lo, middle, paydayDay) + Paydays(from, to, middle + 1, hi, paydayDay)
    decreases hi - lo
  {
    hide Clamped;
    if lo <= middle {
      PaydaysSplit(from, to, lo + 1, middle, hi, paydayDay);
    } else {
      PaydaysEmpty(from, to, lo, middle, paydayDay);
    }
  }

  /** Listing at most 600 months loses no first payday. */
  lemma {:induction false} FirstOfPaydays(from: int, to: int, paydayDay: int, x: int)
    requires 1 <= paydayDay
    ensures var lo, hi := MonthOf(from), MonthOf(to);
      var p := Paydays(from, to, lo, Min(hi, lo + PAYDAY_MONTH_LIMIT - 1), paydayDay);
      && (from <= x < to && PaydayOn(x, paydayDay) ==> p != [] && p[0] <= x)
      && (p != [] ==> from <= p[0] < to && PaydayOn(p[0], paydayDay))
  {
    hide MonthOf, Clamped, Paydays;
    var lo, hi := MonthOf(from), MonthOf(to);
    var end := Min(hi, lo + PAYDAY_MONTH_LIMIT - 1);
    var p := Paydays(from, to, lo, end, paydayDay);
    if p != [] {
      PaydaysMembers(from, to, lo, end, paydayDay, p[0]);
    }
    if from <= x < to && PaydayOn(x, paydayDay) {
      MonthOfMonotone(from, to);
      FirstIsLeast(from, to, paydayDay, end, x);
    }
  }

  lemma {:induction false} FirstIsLeast(from: int, to: int, paydayDay: int, end: int, x: int)
    requires 1 <= paydayDay && from <= x < to && PaydayOn(x, paydayDay)
    requires MonthOf(from) <= MonthOf(to) && end == Min(MonthOf(to), MonthOf(from) + PAYDAY_MONTH_LIMIT - 1)
    ensures var p := Paydays(from, to, MonthOf(from), end, paydayDay); p != [] && p[0] <= x
  {
    hide MonthOf, Clamped, Paydays;
    var lo, hi := MonthOf(from), MonthOf(to);
    PaydaysComplete(from, to, paydayDay, x);
    PaydaysSplit(from, to, lo, end, hi, paydayDay);
    PaydaysAscend(from, to, lo, hi, paydayDay);
    if end < hi {
      SecondMonthHasOne(from, to, paydayDay);
    } else {
      PaydaysEmpty(from, to, end + 1, hi, paydayDay);
    }
    assert Paydays(from, to, lo, hi, paydayDay)[0] == Paydays(from, to, lo, end, paydayDay)[0];
  }

  lemma {:induction false} SecondMonthHasOne(from: int, to: int, paydayDay: int)
    requires 1 <= paydayDay && MonthOf(from) + PAYDAY_MONTH_LIMIT - 1 < MonthOf(to)
    ensures Paydays(from, to, MonthOf(from), MonthOf(from) + PAYDAY_MONTH_LIMIT - 1, paydayDay) != []
  {
    hide MonthOf, Clamped, Paydays, First;
    var x := Clamped(MonthOf(from) + 1, paydayDay);
    ClampedInMonth(MonthOf(from) + 1, paydayDay);
    FirstMonotone(MonthOf(from) + 2, MonthOf(to));
    PaydaysMembers(from, to, MonthOf(from), MonthOf(from) + PAYDAY_MONTH_LIMIT - 1, paydayDay, x);
  }

  // ----- The timeline -----

  datatype Timeline = Timeline(from: string, untilExclusive: string, paydayDate: Option<string>, before: Group, after: Group, unknownCount: nat)

  function Horizon(until: string): string {
    match AddCivilDays(until, 45)
    case None => until
    case Some(later) => later
  }

  /** Only a payday inside the window splits it. */
  function Cut(paydayDate: Option<string>, until: string): Option<string> {
    if paydayDate.Some? && TextLess(paydayDate.value, until) then paydayDate else None
  }

  method BuildPaydayTimeline(items: seq<Cost>, from: string, untilExclusive: string, paydayDay: int) returns (timeline: Timeline)
    ensures timeline.from == from && timeline.untilExclusive == untilExclusive
    ensures ParseCivil(from).None? ==> timeline.unknownCount == 0 && timeline.before.total == timeline.after.total == Some(0)
    ensures ParseCivil(from).Some? ==>
      var occurrences, cut := Sort(AllEntries(items, ParseCivil(from).value, untilExclusive), Earlier), Cut(timeline.paydayDate, untilExclusive);
      && timeline.unknownCount == Unknown(items)
      && timeline.before == GroupOf(UpTo(occurrences, cut), Unknown(items) > 0)
      && timeline.after == GroupOf(Beyond(occurrences, cut), Unknown(items) > 0)
    ensures ParseCivil(from).Some? && ParseCivil(Horizon(untilExclusive)).Some? && 1 <= paydayDay <= 31 ==>
      IsFirstPayday(timeline.paydayDate, DayOf(from), DayOf(Horizon(untilExclusive)), paydayDay)
    ensures ParseCivil(from).None? || ParseCivil(Horizon(untilExclusive)).None? || !(1 <= paydayDay <= 31) ==> timeline.paydayDate.None?
  {
    hide ParseCivil, DayOf, TextLess, AddCivilDays, AllEntries, Sort, Sum, IsFirstPayday, Paydays, MonthOf, AreTexts,
      Unknown;
    var occurrences, unknownCount := EnumerateDueOccurrences(items, from, untilExclusive);
    var horizon := Horizon(untilExclusive);
    var paydays := PaydayOccurrences(from, horizon, paydayDay);
    var nextPayday := if paydays == [] then None else Some(paydays[0]);
    if ParseCivil(from).Some? && ParseCivil(horizon).Some? && 1 <= paydayDay <= 31 {
      FirstTextIsFirstPayday(paydays, DayOf(from), DayOf(horizon), paydayDay);
    }
    var inWindow := Cut(nextPayday, untilExclusive);
    timeline := Timeline(from, untilExclusive, nextPayday, GroupOf(UpTo(occurrences, inWindow), unknownCount > 0),
                         GroupOf(Beyond(occurrences, inWindow), unknownCount > 0), unknownCount);
  }

  lemma {:induction false} FirstTextIsFirstPayday(texts: seq<string>, from: int, to: int, paydayDay: int)
    requires 1 <= paydayDay <= 31
    requires AreTexts(texts, Paydays(from, to, MonthOf(from), Min(MonthOf(to), MonthOf(from) + PAYDAY_MONTH_LIMIT - 1), paydayDay))
    ensures IsFirstPayday(if texts == [] then None else Some(texts[0]), from, to, paydayDay)
  {
    hide MonthOf, Paydays, DayText, ParseCivil, PaydayOn, RealDay, DayOf;
    forall x | from <= x < to && PaydayOn(x, paydayDay)
      ensures texts != [] && DayOf(texts[0]) <= x
    {
      FirstOfPaydays(from, to, paydayDay, x);
    }
    FirstOfPaydays(from, to, paydayDay, from);
  }
}
