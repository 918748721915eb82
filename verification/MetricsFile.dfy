/** The aggregate file of the marketing counts: its rules, the pruning of old days, and its canonical text. */
module MetricsFile {
  import opened Prelude
  import opened Calendar
  import opened CivilText
  import opened PlanningTime
  import opened StableSort

  const MAX_COUNT_PER_EVENT: nat := 5_000
  const MAX_EVENTS_PER_DAY: nat := 10_000
  const MAX_DAY_ENTRIES: nat := 90
  const DEFAULT_FILE_BYTES: nat := 65_536

  datatype Event = CostSaved | BillingDateSaved | RenewalDecisionSaved

  datatype Reason =
    | Closed | QueueFull | DailyEventCap | DailyTotalCap | SerializedOversized | FileTooLarge | CorruptFile | ReadFailed
    | WriteFailed | DirectoryUnavailable | Unexpected

  /** Counts that are zero may be absent. */
  datatype Day = Day(date: string, counts: map<Event, int>)

  function Count(counts: map<Event, int>, e: Event): int {
    if e in counts then counts[e] else 0
  }

  function DayTotal(counts: map<Event, int>): int {
    Count(counts, CostSaved) + Count(counts, BillingDateSaved) + Count(counts, RenewalDecisionSaved)
  }

  /** What a file may hold: JSON of the aggregate's shape, of so many bytes, or anything else. */
  datatype Contents = Aggregate(bytes: nat, days: seq<Day>) | Foreign(bytes: nat)

  datatype Parsed = Accepted(days: seq<Day>) | Refused(reason: Reason)

  // ----- Parsing -----

  /** A date the UTC calendar gives back unchanged; the constructor moves the years 0 to 99, so they never are. */
  predicate RealUtcDate(s: string) {
    && DatePattern(s)
    && var year, month, day := Value(s[0..4]), Value(s[5..7]), Value(s[8..10]);
       CivilOf(DateUtcDay(year, month - 1, day)) == Civil(year, month, day)
  }

  lemma {:induction false} RealUtcDateIsReal(s: string)
    ensures RealUtcDate(s) <==> ParseCivil(s).Some? && ParseCivil(s).value.year >= 100
  {
    hide Value, AllDigits, Text, LastDay, MakeDay, First, MonthOf, DateOf, Length;
    if DatePattern(s) {
      PatternText(s);
      FieldBound(s[0..4]);
      assert Pow10(4) == 10000 by {
        assert Pow10(2) == 100;
      }
      var c := Civil(Value(s[0..4]), Value(s[5..7]), Value(s[8..10]));
      DayNumberOfCivil(DateUtcDay(c.year, c.month - 1, c.day));
      if c.year >= 100 {
        if ValidCivil(c) {
          CivilOfDayNumber(c);
          ParseIffText(s, c);
        }
        if ParseCivil(s).Some? {
          ParseIffText(s, ParseCivil(s).value);
        }
      } else if CivilOf(DateUtcDay(c.year, c.month - 1, c.day)) == c {
        CivilOfDayNumber(c);
        MovedYear(c);
      }
    }
  }

  lemma MovedYear(c: Civil)
    requires ValidCivil(c) && 0 <= c.year < 100
    ensures DateUtcDay(c.year, c.month - 1, c.day) != DayNumber(c)
  {
    hide First, Length, MakeDay;
    MakeDayIsMonthDay(c.year, c.month - 1, c.day);
    MakeDayIsMonthDay(c.year + 1900, c.month - 1, c.day);
    FirstMonotone(12 * c.year + c.month - 1, 12 * (c.year + 1900) + c.month - 1);
  }

  predicate CountsInRange(counts: map<Event, int>) {
    forall e :: e in counts ==> 0 <= counts[e] <= MAX_COUNT_PER_EVENT
  }

  predicate DayAccepted(d: Day) {
    DatePattern(d.date) && CountsInRange(d.counts) && RealUtcDate(d.date) && DayTotal(d.counts) <= MAX_EVENTS_PER_DAY
  }

  predicate DatesDiffer(days: seq<Day>) {
    forall i, j :: 0 <= i < j < |days| ==> days[i].date != days[j].date
  }

  predicate DaysAccepted(days: seq<Day>) {
    |days| <= MAX_DAY_ENTRIES && DatesDiffer(days) && forall i :: 0 <= i < |days| ==> DayAccepted(days[i])
  }

  function Positive(counts: map<Event, int>): (r: map<Event, int>)
    ensures forall e :: e in r <==> e in counts && counts[e] > 0
    ensures forall e :: e in r ==> r[e] == counts[e]
  {
    map e | e in counts && counts[e] > 0 :: counts[e]
  }

  function Normal(days: seq<Day>): (r: seq<Day>)
    ensures |r| == |days| && forall i :: 0 <= i < |r| ==> r[i] == Day(days[i].date, Positive(days[i].counts))
  {
    seq(|days|, i requires 0 <= i < |days| => Day(days[i].date, Positive(days[i].counts)))
  }

  predicate Dated(days: seq<Day>) {
    forall i :: 0 <= i < |days| ==> ParseCivil(days[i].date).Some?
  }

  /** A list of days each of which the parser accepts, with real and different dates. */
  predicate Sound(days: seq<Day>) {
    && Dated(days) && DatesDiffer(days)
    && forall i :: 0 <= i < |days| ==> DayAccepted(days[i])
  }

  lemma {:induction false} AcceptedIsSound(days: seq<Day>)
    requires DaysAccepted(days)
    ensures Sound(Normal(days)) && DaysAccepted(Normal(days))
  {
    hide RealUtcDate, DatePattern, ParseCivil;
    forall i | 0 <= i < |days|
      ensures DayAccepted(Normal(days)[i]) && ParseCivil(Normal(days)[i].date).Some?
    {
      RealUtcDateIsReal(days[i].date);
      assert DayAccepted(days[i]);
    }
  }

  function Parse(c: Contents, maxBytes: nat): (r: Parsed)
    ensures r.Accepted? ==> Sound(r.days) && DaysAccepted(r.days)
  {
    hide Sound, DayAccepted;
    if c.bytes > maxBytes then Refused(FileTooLarge)
    else if c.Aggregate? && DaysAccepted(c.days) then
      AcceptedIsSound(c.days);
      Accepted(Normal(c.days))
    else Refused(CorruptFile)
  }

  /** The parser's schema check, then its loop over the days. */
  method ParseMarketingMetricsFile(c: Contents, maxBytes: nat) returns (r: Parsed)
    ensures r == Parse(c, maxBytes)
  {
    hide RealUtcDate, DatePattern;
    if c.bytes > maxBytes {
      return Refused(FileTooLarge);
    }
    if !c.Aggregate? || |c.days| > MAX_DAY_ENTRIES
       || exists i :: 0 <= i < |c.days| && (!DatePattern(c.days[i].date) || !CountsInRange(c.days[i].counts)) {
      return Refused(CorruptFile);
    }
    var seen: set<string>, days, i := {}, [], 0;
    while i < |c.days|
      invariant 0 <= i <= |c.days| && seen == set j | 0 <= j < i :: c.days[j].date
      invariant days == Normal(c.days[..i])
      invariant DatesDiffer(c.days[..i]) && forall j :: 0 <= j < i ==> DayAccepted(c.days[j])
    {
      var entry := c.days[i];
      if !RealUtcDate(entry.date) || entry.date in seen {
        return Refused(CorruptFile);
      }
      seen := seen + {entry.date};
      if DayTotal(entry.counts) > MAX_EVENTS_PER_DAY {
        return Refused(CorruptFile);
      }
      days := days + [Day(entry.date, Positive(entry.counts))];
      i := i + 1;
    }
    assert c.days[..i] == c.days;
    r := Accepted(days);
  }

  // ----- Counting -----

  /** The count of an event on a date; a date without an entry counts nothing. */
  function CountOn(days: seq<Day>, date: string, e: Event): int {
    if days == [] then 0
    else if days[|days| - 1].date == date then Count(days[|days| - 1].counts, e)
    else CountOn(days[..|days| - 1], date, e)
  }

  predicate Lists(days: seq<Day>, date: string) {
    exists i :: 0 <= i < |days| && days[i].date == date
  }

  lemma {:induction false} CountOnEntry(days: seq<Day>, i: nat, e: Event)
    requires DatesDiffer(days) && i < |days|
    ensures CountOn(days, days[i].date, e) == Count(days[i].counts, e)
  {
    if i < |days| - 1 {
      CountOnEntry(days[..|days| - 1], i, e);
    }
  }

  lemma {:induction false} CountOnMissing(days: seq<Day>, date: string, e: Event)
    requires !Lists(days, date)
    ensures CountOn(days, date, e) == 0
  {
    if days != [] {
      CountOnMissing(days[..|days| - 1], date, e);
    }
  }

  /** Two lists with the same entry for a date, or neither with one, count it alike. */
  lemma {:induction false} SameEntrySameCount(a: seq<Day>, b: seq<Day>, date: string, e: Event)
    requires DatesDiffer(a) && DatesDiffer(b)
    requires forall i :: 0 <= i < |a| && a[i].date == date ==>
               exists j :: 0 <= j < |b| && b[j].date == date && Count(b[j].counts, e) == Count(a[i].counts, e)
    requires Lists(b, date) ==> Lists(a, date)
    ensures CountOn(a, date, e) == CountOn(b, date, e)
  {
    if Lists(a, date) {
      var i :| 0 <= i < |a| && a[i].date == date;
      var j :| 0 <= j < |b| && b[j].date == date && Count(b[j].counts, e) == Count(a[i].counts, e);
      CountOnEntry(a, i, e);
      CountOnEntry(b, j, e);
    } else {
      CountOnMissing(a, date, e);
      CountOnMissing(b, date, e);
    }
  }

  // ----- Pruning -----

  /** Kept: not in the future, younger than the retention, and not empty. */
  predicate Retained(d: Day, today: string, retention: int)
    requires ParseCivil(d.date).Some? && ParseCivil(today).Some?
  {
    0 <= DayOf(today) - DayOf(d.date) < retention && DayTotal(d.counts) != 0
  }

  function Kept(days: seq<Day>, today: string, retention: int): (r: seq<Day>)
    requires Dated(days) && ParseCivil(today).Some?
    ensures |r| <= |days|
  {
    if days == [] then []
    else Kept(days[..|days| - 1], today, retention) + if Retained(days[|days| - 1], today, retention) then [days[|days| - 1]] else []
  }

  predicate DateBefore(a: Day, b: Day) {
    TextLess(a.date, b.date)
  }

  function Prune(days: seq<Day>, today: string, retention: int): seq<Day>
    requires Dated(days) && ParseCivil(today).Some?
  {
    Sort(Kept(days, today, retention), DateBefore)
  }

  method PruneMarketingMetricsDays(file: seq<Day>, today: string, retention: int) returns (days: seq<Day>, droppedDays: nat)
    requires Dated(file) && ParseCivil(today).Some?
    ensures days == Prune(file, today, retention) && droppedDays == |file| - |Kept(file, today, retention)|
  {
    hide ParseCivil, DayOf, Retained, Sort;
    days, droppedDays := [], 0;
    for i := 0 to |file|
      invariant days == Kept(file[..i], today, retention) && droppedDays == i - |days|
    {
      assert file[..i + 1][..i] == file[..i];
      if Retained(file[i], today, retention) {
        days := days + [file[i]];
      } else {
        droppedDays := droppedDays + 1;
      }
    }
    assert file[..|file|] == file;
    days := Sort(days, DateBefore);
  }

  lemma {:induction false} KeptMembers(days: seq<Day>, today: string, retention: int, d: Day)
    requires Dated(days) && ParseCivil(today).Some?
    ensures d in Kept(days, today, retention) <==> d in days && ParseCivil(d.date).Some? && Retained(d, today, retention)
  {
    hide ParseCivil, DayOf, Retained;
    if days != [] {
      KeptMembers(days[..|days| - 1], today, retention, d);
      assert days == days[..|days| - 1] + [days[|days| - 1]];
    }
  }

  lemma {:induction false} KeptDiffer(days: seq<Day>, today: string, retention: int)
    requires Dated(days) && ParseCivil(today).Some? && DatesDiffer(days)
    ensures DatesDiffer(Kept(days, today, retention))
  {
    hide ParseCivil, DayOf, Retained;
    if days != [] {
      var rest, last := days[..|days| - 1], days[|days| - 1];
      KeptDiffer(rest, today, retention);
      forall i | 0 <= i < |Kept(rest, today, retention)|
        ensures Kept(rest, today, retention)[i].date != last.date
      {
        KeptMembers(rest, today, retention, Kept(rest, today, retention)[i]);
      }
    }
  }

  lemma {:induction false} PruneMembers(days: seq<Day>, today: string, retention: int, d: Day)
    requires Dated(days) && ParseCivil(today).Some?
    ensures d in Prune(days, today, retention) <==> d in days && ParseCivil(d.date).Some? && Retained(d, today, retention)
  {
    hide ParseCivil, Kept, Sort;
    KeptMembers(days, today, retention, d);
    SortKeeps(Kept(days, today, retention), DateBefore);
    assert d in Prune(days, today, retention) <==> d in multiset(Prune(days, today, retention));
    assert d in Kept(days, today, retention) <==> d in multiset(Kept(days, today, retention));
  }

  lemma DateBeforeIsAnOrder()
    ensures WeakOrder(DateBefore)
  {
    hide TextLess;
    forall a, b | DateBefore(a, b)
      ensures !DateBefore(b, a)
    {
      TextLessTotal(a.date, b.date);
    }
    forall a, b, c | !DateBefore(a, b) && !DateBefore(b, c)
      ensures !DateBefore(a, c)
    {
      TextLessTotal(a.date, b.date);
      TextLessTotal(b.date, c.date);
      if a.date != b.date && b.date != c.date {
        TextLessTransitive(c.date, b.date, a.date);
        TextLessTotal(a.date, c.date);
      }
    }
  }

  predicate Ascending(days: seq<Day>) {
    Dated(days) && forall i, j :: 0 <= i < j < |days| ==> DayOf(days[i].date) < DayOf(days[j].date)
  }

  /** Sorting days with different dates puts them in strictly ascending order and keeps each. */
  lemma {:induction false} SortedDays(days: seq<Day>)
    requires Dated(days) && DatesDiffer(days)
    ensures Ascending(Sort(days, DateBefore)) && multiset(Sort(days, DateBefore)) == multiset(days)
    ensures |Sort(days, DateBefore)| == |days| && DatesDiffer(Sort(days, DateBefore))
  {
    hide ParseCivil, DayOf, Sort, TextLess;
    var r := Sort(days, DateBefore);
    DateBeforeIsAnOrder();
    SortSorts(days, DateBefore);
    SortKeeps(days, DateBefore);
    assert |multiset(r)| == |multiset(days)|;
    forall i | 0 <= i < |r|
      ensures ParseCivil(r[i].date).Some?
    {
      assert r[i] in multiset(days);
    }
    SameDaysDiffer(days, r);
    forall i, j | 0 <= i < j < |r|
      ensures DayOf(r[i].date) < DayOf(r[j].date)
    {
      TextOrderIsDayOrder(r[i].date, r[j].date);
      TextOrderIsDayOrder(r[j].date, r[i].date);
      assert !DateBefore(r[j], r[i]);
    }
  }

  /** A rearrangement of days with different dates has different dates. */
  lemma SameDaysDiffer(a: seq<Day>, b: seq<Day>)
    requires multiset(a) == multiset(b) && DatesDiffer(a)
    ensures DatesDiffer(b)
  {
    forall i, j | 0 <= i < j < |b|
      ensures b[i].date != b[j].date
    {
      if b[i].date == b[j].date {
        assert b[i] in multiset(a) && b[j] in multiset(a);
        assert b[i] == b[j];
        Twice(b, i, j);
        Once(a, b[i]);
      }
    }
  }

  lemma Twice(s: seq<Day>, i: nat, j: nat)
    requires i < j < |s| && s[i] == s[j]
    ensures multiset(s)[s[i]] >= 2
  {
    assert s == s[..j] + [s[j]] + s[j + 1..];
    assert s[i] in multiset(s[..j]);
  }

  lemma {:induction false} Once(s: seq<Day>, d: Day)
    requires DatesDiffer(s)
    ensures multiset(s)[d] <= 1
  {
    if s != [] {
      Once(s[..|s| - 1], d);
      assert s == s[..|s| - 1] + [s[|s| - 1]];
      if d == s[|s| - 1] {
        assert d !in s[..|s| - 1];
        assert d !in multiset(s[..|s| - 1]);
      }
    }
  }

  /** Different days in a range of `n` days are at most `n`: a pigeonhole argument on ascending days. */
  lemma {:induction false} AscendingFits(days: seq<Day>, low: int, end: int)
    requires Ascending(days) && low <= end && forall i :: 0 <= i < |days| ==> low <= DayOf(days[i].date) < end
    ensures |days| <= end - low
  {
    hide ParseCivil, DayOf;
    if days != [] {
      var n := |days| - 1;
      AscendingFits(days[..n], low, DayOf(days[n].date));
    }
  }

  // ----- The canonical text -----

  const EVENT_NAMES := ["personal_cost_saved", "personal_billing_date_saved", "personal_renewal_decision_saved"]

  function NameOf(e: Event): string {
    match e
    case CostSaved => EVENT_NAMES[0]
    case BillingDateSaved => EVENT_NAMES[1]
    case RenewalDecisionSaved => EVENT_NAMES[2]
  }

  function Entry(counts: map<Event, int>, e: Event): seq<string> {
    if e in counts && counts[e] > 0 then ["\"" + NameOf(e) + "\":" + Decimal(counts[e])] else []
  }

  function Join(parts: seq<string>): string {
    if parts == [] then "" else if |parts| == 1 then parts[0] else Join(parts[..|parts| - 1]) + "," + parts[|parts| - 1]
  }

  function DayJson(d: Day): string {
    "{\"date\":\"" + d.date + "\",\"counts\":{"
    + Join(Entry(d.counts, CostSaved) + Entry(d.counts, BillingDateSaved) + Entry(d.counts, RenewalDecisionSaved)) + "}}"
  }

  /** Days whose counts are all zero are not written. */
  function NonEmpty(days: seq<Day>): (r: seq<Day>)
    ensures forall i :: 0 <= i < |r| ==> r[i] in days && r[i].counts != map[]
    ensures |r| <= |days|
  {
    if days == [] then []
    else NonEmpty(days[..|days| - 1]) + if days[|days| - 1].counts != map[] then [days[|days| - 1]] else []
  }

  /** What is written: ascending dates, zero counts and empty days left out. */
  function Canonical(days: seq<Day>): seq<Day> {
    NonEmpty(Normal(Sort(days, DateBefore)))
  }

  function DayTexts(days: seq<Day>): (r: seq<string>)
    ensures |r| == |days| && forall i :: 0 <= i < |r| ==> r[i] == DayJson(days[i])
  {
    seq(|days|, i requires 0 <= i < |days| => DayJson(days[i]))
  }

  function Serialize(days: seq<Day>): string {
    "{\"version\":1,\"days\":[" + Join(DayTexts(Canonical(days))) + "]}"
  }
}
