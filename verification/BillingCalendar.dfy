/**
  The end of a billing period, twice: once from an instant (the billing service) and once from a calendar date
  text (the pricing preparation). Both keep the original anchor day and clamp each target month on its own.
*/
module BillingCalendar {
  import opened Prelude
  import opened Calendar
  import opened CivilText

  datatype Plan = Monthly | Annual

  /** The price catalog, in won. */
  function Price(plan: Plan): int {
    match plan
    case Monthly => 990
    case Annual => 9900
  }

  function Months(plan: Plan): int {
    match plan
    case Monthly => 1
    case Annual => 12
  }

  /** Korea is nine hours ahead of UTC all year. */
  const KST_OFFSET := 9 * MS_PER_HOUR

  function KstDay(t: int): int {
    DayOfTime(t + KST_OFFSET)
  }

  /** The period boundary of the billing service; the Date constructor's year quirk is kept. */
  function Boundary(anchor: int, months: int): int {
    var kst := CivilOf(KstDay(anchor));
    var m := kst.month - 1 + months;
    var day := Min(kst.day, LastDay(kst.year, m));
    DateUtcDay(kst.year, m, day) * MS_PER_DAY - KST_OFFSET
  }

  /** The month the boundaries of an anchor are counted from. */
  function BaseMonth(anchor: int): int {
    var kst := CivilOf(KstDay(anchor));
    12 * FullYear(kst.year) + kst.month - 1
  }

  /** A boundary is KST midnight of the anchor's day of the month, clamped to the target month. */
  lemma {:induction false} BoundaryIsClampedAnchorDay(anchor: int, months: int)
    ensures Boundary(anchor, months) == Clamped(BaseMonth(anchor) + months, CivilOf(KstDay(anchor)).day) * MS_PER_DAY - KST_OFFSET
    ensures (Boundary(anchor, months) + KST_OFFSET) % MS_PER_DAY == 0
    ensures MonthOf(KstDay(Boundary(anchor, months))) == BaseMonth(anchor) + months
    ensures DateOf(KstDay(Boundary(anchor, months))) == Min(DateOf(KstDay(anchor)), Length(BaseMonth(anchor) + months))
  {
    hide First, MakeDay, LastDay, MonthOf, DateOf, Length;
    var kst := CivilOf(KstDay(anchor));
    var m := kst.month - 1 + months;
    LastDayIsLength(kst.year, m);
    MakeDayIsMonthDay(FullYear(kst.year), m, Min(kst.day, LastDay(kst.year, m)));
    ClampedInMonth(BaseMonth(anchor) + months, kst.day);
    WholeDays(Clamped(BaseMonth(anchor) + months, kst.day));
  }

  lemma WholeDays(day: int)
    ensures day * MS_PER_DAY % MS_PER_DAY == 0 && DayOfTime(day * MS_PER_DAY) == day
  {
  }

  /** One more month always ends later: this is what keeps consecutive periods from collapsing. */
  lemma {:induction false} BoundaryIncreases(anchor: int, a: int, b: int)
    requires a < b
    ensures Boundary(anchor, a) < Boundary(anchor, b)
  {
    hide *;
    BoundaryIsClampedAnchorDay(anchor, a);
    BoundaryIsClampedAnchorDay(anchor, b);
    AnchorDay(anchor);
    var day := CivilOf(KstDay(anchor)).day;
    ClampedIncreases(BaseMonth(anchor) + a, BaseMonth(anchor) + b, day, day);
    LaterMidnight(Clamped(BaseMonth(anchor) + a, day), Clamped(BaseMonth(anchor) + b, day));
  }

  lemma LaterMidnight(a: int, b: int)
    requires a < b
    ensures a * MS_PER_DAY - KST_OFFSET < b * MS_PER_DAY - KST_OFFSET
  {
  }

  lemma AnchorDay(anchor: int)
    ensures CivilOf(KstDay(anchor)).day >= 1
  {
    hide MonthOf;
  }

  /** Whatever the anchor, a positive number of months ends after it. */
  lemma {:induction false} BoundaryAfterAnchor(anchor: int, months: int)
    requires months >= 1
    ensures Boundary(anchor, months) > anchor
  {
    hide Boundary, Clamped, BaseMonth, KstDay, MonthOf, First, Length;
    BoundaryIsClampedAnchorDay(anchor, months);
    AnchorDay(anchor);
    var day := KstDay(anchor);
    BaseMonthNotEarlier(anchor);
    ClampedInMonth(BaseMonth(anchor) + months, CivilOf(day).day);
    FirstMonotone(MonthOf(day) + 1, BaseMonth(anchor) + months);
    assert Clamped(BaseMonth(anchor) + months, CivilOf(day).day) >= day + 1;
    BeforeNextDay(anchor, Clamped(BaseMonth(anchor) + months, CivilOf(day).day));
  }

  lemma BaseMonthNotEarlier(anchor: int)
    ensures BaseMonth(anchor) >= MonthOf(KstDay(anchor))
    ensures CivilOf(KstDay(anchor)).year >= 100 ==> BaseMonth(anchor) == MonthOf(KstDay(anchor))
  {
    hide MonthOf, KstDay, DateOf;
  }

  lemma BeforeNextDay(t: int, later: int)
    requires later >= KstDay(t) + 1
    ensures later * MS_PER_DAY - KST_OFFSET > t
  {
    assert (t + KST_OFFSET) < (KstDay(t) + 1) * MS_PER_DAY;
    assert later * MS_PER_DAY >= (KstDay(t) + 1) * MS_PER_DAY;
  }

  // ----- The second implementation -----

  datatype CycleBoundary = At(instant: int) | InvalidCycleAnchor | InvalidCalendarDate | OutsideSupportedCalendar

  const MAX_SAFE_INTEGER := 9007199254740991
  /** December 9999 as a month index. */
  const LAST_MONTH := 9999 * 12 + 11

  function PeriodBoundary(anchor: string, plan: Plan, cycle: int): CycleBoundary {
    if !DatePattern(anchor) || cycle > MAX_SAFE_INTEGER || cycle < 0 then InvalidCycleAnchor
    else
      var year, month, day := Value(anchor[0..4]), Value(anchor[5..7]), Value(anchor[8..10]);
      if year < 2000 || year > 9999 || month < 1 || month > 12 || day < 1
          || day > LastDay(year, month - 1) then InvalidCalendarDate
      else
        var target := year * 12 + month - 1 + cycle * Months(plan);
        if target > LAST_MONTH then OutsideSupportedCalendar
        else
          var clamped := Min(day, LastDay(target / 12, target % 12));
          At(DateUtcDay(target / 12, target % 12, clamped) * MS_PER_DAY - KST_OFFSET)
  }

  /** For the anchor's own KST date, the two implementations agree at every cycle the second one supports, and it
      refuses only cycles past the year 9999. */
  lemma {:induction false} BoundariesAgree(anchor: int, plan: Plan, cycle: int)
    requires 0 <= cycle <= MAX_SAFE_INTEGER
    requires 2000 <= CivilOf(KstDay(anchor)).year <= 9999
    ensures Real(CivilOf(KstDay(anchor)))
    ensures PeriodBoundary(Text(CivilOf(KstDay(anchor))), plan, cycle)
         == if BaseMonth(anchor) + cycle * Months(plan) <= LAST_MONTH
            then At(Boundary(anchor, cycle * Months(plan)))
            else OutsideSupportedCalendar
  {
    hide Boundary, KstDay, MonthOf, First, Length, LastDay, MakeDay, DateOf, DatePattern, Text, Value;
    var date := CivilOf(KstDay(anchor));
    DayNumberOfCivil(KstDay(anchor));
    TextFields(date);
    RealDays(date.year, date.month);
    var target := BaseMonth(anchor) + cycle * Months(plan);
    assert target == date.year * 12 + date.month - 1 + cycle * Months(plan);
    BoundaryIsClampedAnchorDay(anchor, cycle * Months(plan));
    LastDayIsLength(target / 12, target % 12);
    CycleForward(cycle, plan);
    assert 12 * (target / 12) + target % 12 == target && target / 12 >= 2000;
    MakeDayIsMonthDay(target / 12, target % 12, Min(date.day, Length(target)));
  }

  lemma CycleForward(cycle: int, plan: Plan)
    requires cycle >= 0
    ensures cycle * Months(plan) >= 0
  {
  }
}
