/** What recording an event does to the counts of the aggregate file. */
module MetricsCounts {
  import opened Prelude
  import opened Calendar
  import opened CivilText
  import opened PlanningTime
  import opened StableSort
  import opened MetricsFile

  /** The list with an entry for today; at the retention's size the oldest entry would make room for it. */
  function AddDay(days: seq<Day>, today: string, retention: int): seq<Day> {
    if Lists(days, today) then days
    else (if |days| >= retention && days != [] then days[1..] else days) + [Day(today, map[])]
  }

  function Bump(days: seq<Day>, today: string, e: Event): (r: seq<Day>)
    ensures |r| == |days|
    ensures forall i :: 0 <= i < |r| ==>
              r[i] == if days[i].date == today then Day(today, days[i].counts[e := Count(days[i].counts, e) + 1]) else days[i]
  {
    seq(|days|, i requires 0 <= i < |days| =>
      if days[i].date == today then Day(today, days[i].counts[e := Count(days[i].counts, e) + 1]) else days[i])
  }

  /** The day's counts, of a list that has the day. */
  function CountsOn(days: seq<Day>, date: string): map<Event, int> {
    if days == [] then map[] else if days[|days| - 1].date == date then days[|days| - 1].counts else CountsOn(days[..|days| - 1], date)
  }

  lemma {:induction false} CountOfCountsOn(days: seq<Day>, date: string, e: Event)
    ensures CountOn(days, date, e) == Count(CountsOn(days, date), e)
  {
    if days != [] {
      CountOfCountsOn(days[..|days| - 1], date, e);
    }
  }

  lemma NormalKeepsCount(days: seq<Day>, date: string, e: Event)
    requires DatesDiffer(days) && forall i :: 0 <= i < |days| ==> CountsInRange(days[i].counts)
    ensures CountOn(Normal(days), date, e) == CountOn(days, date, e)
  {
    SameEntrySameCount(Normal(days), days, date, e);
  }

  lemma {:induction false} NonEmptyDiffer(days: seq<Day>)
    requires DatesDiffer(days)
    ensures DatesDiffer(NonEmpty(days))
  {
    if days != [] {
      NonEmptyDiffer(days[..|days| - 1]);
    }
  }

  lemma {:induction false} NonEmptyKeepsCount(days: seq<Day>, date: string, e: Event)
    requires DatesDiffer(days)
    ensures CountOn(NonEmpty(days), date, e) == CountOn(days, date, e)
  {
    if days != [] {
      var rest, last := days[..|days| - 1], days[|days| - 1];
      NonEmptyKeepsCount(rest, date, e);
      if last.counts == map[] {
        assert NonEmpty(days) == NonEmpty(rest);
        if last.date == date {
          assert !Lists(rest, date);
          CountOnMissing(rest, date, e);
        }
      } else {
        assert NonEmpty(days)[..|NonEmpty(days)| - 1] == NonEmpty(rest);
      }
    }
  }

  lemma {:induction false} SortKeepsCount(days: seq<Day>, date: string, e: Event)
    requires Dated(days) && DatesDiffer(days)
    ensures CountOn(Sort(days, DateBefore), date, e) == CountOn(days, date, e)
  {
    hide Sort, Dated, Ascending;
    var r := Sort(days, DateBefore);
    SortedDays(days);
    forall i | 0 <= i < |r| && r[i].date == date
      ensures exists j :: 0 <= j < |days| && days[j].date == date && Count(days[j].counts, e) == Count(r[i].counts, e)
    {
      assert r[i] in multiset(days);
    }
    if Lists(days, date) {
      var j :| 0 <= j < |days| && days[j].date == date;
      assert days[j] in multiset(r);
    }
    SameEntrySameCount(r, days, date, e);
  }

  /** Writing the canonical form keeps every count, and what is written is accepted when it was read back sound. */
  lemma {:induction false} CanonicalKeepsCount(days: seq<Day>, date: string, e: Event)
    requires Sound(days)
    ensures CountOn(Canonical(days), date, e) == CountOn(days, date, e)
  {
    hide Sort, RealUtcDate, ParseCivil;
    var sorted := Sort(days, DateBefore);
    SortKeepsCount(days, date, e);
    SortedDays(days);
    SortedIsSound(days);
    NormalKeepsCount(sorted, date, e);
    NonEmptyKeepsCount(Normal(sorted), date, e);
  }

  lemma {:induction false} SortedIsSound(days: seq<Day>)
    requires Sound(days)
    ensures Sound(Sort(days, DateBefore)) && |Sort(days, DateBefore)| == |days|
  {
    hide Sort, DayAccepted, ParseCivil;
    SortedDays(days);
    var r := Sort(days, DateBefore);
    forall i | 0 <= i < |r|
      ensures DayAccepted(r[i])
    {
      assert r[i] in multiset(days);
    }
  }

  lemma {:induction false} CanonicalIsSound(days: seq<Day>)
    requires Sound(days) && |days| <= MAX_DAY_ENTRIES
    ensures Sound(Canonical(days)) && DaysAccepted(Canonical(days))
    ensures forall i :: 0 <= i < |Canonical(days)| ==> Lists(days, Canonical(days)[i].date)
  {
    hide Sort, DayAccepted, ParseCivil;
    SortedIsSound(days);
    NonEmptyDiffer(Normal(Sort(days, DateBefore)));
    forall i | 0 <= i < |Canonical(days)|
      ensures DayAccepted(Canonical(days)[i]) && ParseCivil(Canonical(days)[i].date).Some?
          && Lists(days, Canonical(days)[i].date)
    {
      CanonicalDay(days, i);
    }
  }

  lemma {:induction false} CanonicalDay(days: seq<Day>, i: nat)
    requires Sound(days) && i < |Canonical(days)|
    ensures var d := Canonical(days)[i]; DayAccepted(d) && ParseCivil(d.date).Some? && Lists(days, d.date)
  {
    hide Sort, RealUtcDate, ParseCivil, DatePattern;
    var sorted := Sort(days, DateBefore);
    SortedIsSound(days);
    SortedDays(days);
    var j :| 0 <= j < |sorted| && Normal(sorted)[j] == Canonical(days)[i];
    assert DayAccepted(sorted[j]);
    assert sorted[j] in multiset(days);
  }

  /** Reading back what was written gives the same counts. */
  lemma CanonicalIsNormal(days: seq<Day>)
    ensures Normal(Canonical(days)) == Canonical(days)
  {
    hide Sort;
    var normal := Normal(Sort(days, DateBefore));
    forall i | 0 <= i < |Canonical(days)|
      ensures Positive(Canonical(days)[i].counts) == Canonical(days)[i].counts
    {
      assert Canonical(days)[i] in normal;
    }
  }

  // ----- Pruning -----

  lemma {:induction false} PruneIsSound(days: seq<Day>, today: string, retention: int)
    requires Sound(days) && ParseCivil(today).Some?
    ensures Sound(Prune(days, today, retention)) && |Prune(days, today, retention)| <= |days|
  {
    hide Sort, DayAccepted, ParseCivil, Retained;
    var kept := Kept(days, today, retention);
    KeptDiffer(days, today, retention);
    forall i | 0 <= i < |kept|
      ensures DayAccepted(kept[i]) && ParseCivil(kept[i].date).Some?
    {
      KeptMembers(days, today, retention, kept[i]);
    }
    SortedIsSound(kept);
  }

  predicate InWindow(date: string, today: string, retention: int) {
    ParseCivil(date).Some? && ParseCivil(today).Some? && 0 <= DayOf(today) - DayOf(date) < retention
  }

  /** Pruning keeps every count in the window. */
  lemma {:induction false} PruneKeepsCount(days: seq<Day>, today: string, retention: int, date: string, e: Event)
    requires Sound(days) && InWindow(date, today, retention)
    ensures CountOn(Prune(days, today, retention), date, e) == CountOn(days, date, e)
  {
    hide Sort, RealUtcDate, ParseCivil, Prune, Kept, DatePattern, DayOf;
    var r := Prune(days, today, retention);
    PruneIsSound(days, today, retention);
    if Lists(days, date) {
      var i :| 0 <= i < |days| && days[i].date == date;
      CountOnEntry(days, i, e);
      PruneMembers(days, today, retention, days[i]);
      if days[i] in r {
        var j :| 0 <= j < |r| && r[j] == days[i];
        CountOnEntry(r, j, e);
      } else {
        assert DayAccepted(days[i]);
        NothingElseOn(days, r, i, today, retention);
        CountOnMissing(r, date, e);
      }
    } else {
      MissingStays(days, date, today, retention);
      CountOnMissing(days, date, e);
      CountOnMissing(r, date, e);
    }
  }

  lemma {:induction false} NothingElseOn(days: seq<Day>, r: seq<Day>, i: nat, today: string, retention: int)
    requires Sound(days) && ParseCivil(today).Some? && i < |days| && r == Prune(days, today, retention) && days[i] !in r
    ensures !Lists(r, days[i].date)
  {
    hide Sort, DayAccepted, ParseCivil, Prune, Kept, Retained;
    forall j | 0 <= j < |r|
      ensures r[j].date != days[i].date
    {
      PruneMembers(days, today, retention, r[j]);
      var k :| 0 <= k < |days| && days[k] == r[j];
      assert k != i;
    }
  }

  lemma {:induction false} MissingStays(days: seq<Day>, date: string, today: string, retention: int)
    requires Sound(days) && ParseCivil(today).Some? && !Lists(days, date)
    ensures !Lists(Prune(days, today, retention), date)
  {
    hide Sort, DayAccepted, ParseCivil, Prune, Kept, Retained;
    var r := Prune(days, today, retention);
    forall j | 0 <= j < |r|
      ensures r[j].date != date
    {
      PruneMembers(days, today, retention, r[j]);
      var k :| 0 <= k < |days| && days[k] == r[j];
    }
  }

  /** The branch that drops the oldest day cannot run: without today's entry a pruned file is below the retention. */
  lemma {:induction false} NeverDropsOldest(days: seq<Day>, today: string, retention: int)
    requires Sound(days) && ParseCivil(today).Some? && retention >= 1
    ensures var pruned := Prune(days, today, retention);
      && |pruned| <= retention
      && (!Lists(pruned, today) ==> |pruned| < retention)
      && AddDay(pruned, today, retention) == if Lists(pruned, today) then pruned else pruned + [Day(today, map[])]
  {
    hide Sort, DayAccepted, ParseCivil, DayOf, Prune;
    var pruned := Prune(days, today, retention);
    PrunedAscends(days, today, retention);
    PruneIsSound(days, today, retention);
    forall i | 0 <= i < |pruned|
      ensures DayOf(today) - retention < DayOf(pruned[i].date) <= DayOf(today)
      ensures !Lists(pruned, today) ==> DayOf(pruned[i].date) < DayOf(today)
    {
      PruneMembers(days, today, retention, pruned[i]);
      TextOrderIsDayOrder(pruned[i].date, today);
    }
    AscendingFits(pruned, DayOf(today) - retention + 1, DayOf(today) + 1);
    if !Lists(pruned, today) {
      AscendingFits(pruned, DayOf(today) - retention + 1, DayOf(today));
    }
  }

  lemma {:induction false} PrunedAscends(days: seq<Day>, today: string, retention: int)
    requires Sound(days) && ParseCivil(today).Some?
    ensures Ascending(Prune(days, today, retention))
  {
    hide Sort, DayAccepted, ParseCivil, DayOf, Retained, Ascending;
    var kept := Kept(days, today, retention);
    KeptDiffer(days, today, retention);
    forall i | 0 <= i < |kept|
      ensures ParseCivil(kept[i].date).Some?
    {
      KeptMembers(days, today, retention, kept[i]);
    }
    SortedDays(kept);
  }

  // ----- Recording -----

  /** The file after one more event today. */
  function Recorded(days: seq<Day>, today: string, retention: int, e: Event): seq<Day>
    requires Dated(days) && ParseCivil(today).Some?
  {
    Bump(AddDay(Prune(days, today, retention), today, retention), today, e)
  }

  lemma {:induction false} AddDayIsSound(days: seq<Day>, today: string)
    requires Sound(days) && RealUtcDate(today) && ParseCivil(today).Some? && !Lists(days, today)
    ensures Sound(days + [Day(today, map[])])
    ensures forall date, e :: CountOn(days + [Day(today, map[])], date, e) == CountOn(days, date, e)
  {
    hide ParseCivil, CivilOf, DateUtcDay, Value, DatePattern;
    var r := days + [Day(today, map[])];
    assert r[..|r| - 1] == days;
    forall date, e
      ensures CountOn(r, date, e) == CountOn(days, date, e)
    {
      if date == today {
        CountOnMissing(days, today, e);
      }
    }
  }

  /** Counting one more event on a listed day below its limits adds one there and nothing elsewhere. */
  lemma {:induction false} BumpAddsOne(days: seq<Day>, today: string, e: Event)
    requires Sound(days) && Lists(days, today)
    requires CountOn(days, today, e) < MAX_COUNT_PER_EVENT && DayTotal(CountsOn(days, today)) < MAX_EVENTS_PER_DAY
    ensures Sound(Bump(days, today, e))
    ensures forall date, f :: CountOn(Bump(days, today, e), date, f) == CountOn(days, date, f) + if date == today
        && f == e then 1 else 0
  {
    hide RealUtcDate, ParseCivil, DatePattern;
    var r := Bump(days, today, e);
    forall i | 0 <= i < |r|
      ensures DayAccepted(r[i])
    {
      assert DayAccepted(days[i]);
      if days[i].date == today {
        CountOnEntry(days, i, e);
        OnlyEntry(days, i);
      }
    }
    forall date, f
      ensures CountOn(r, date, f) == CountOn(days, date, f) + if date == today && f == e then 1 else 0
    {
      BumpedCount(days, today, e, date, f);
    }
  }

  lemma {:induction false} OnlyEntry(days: seq<Day>, i: nat)
    requires DatesDiffer(days) && i < |days|
    ensures CountsOn(days, days[i].date) == days[i].counts
  {
    if i < |days| - 1 {
      OnlyEntry(days[..|days| - 1], i);
    }
  }

  lemma BumpedCount(days: seq<Day>, today: string, e: Event, date: string, f: Event)
    requires DatesDiffer(days) && Lists(days, today)
    ensures CountOn(Bump(days, today, e), date, f) == CountOn(days, date, f) + if date == today && f == e then 1 else 0
  {
    var r := Bump(days, today, e);
    if Lists(days, date) {
      var i :| 0 <= i < |days| && days[i].date == date;
      assert r[i].date == date;
      CountOnEntry(days, i, f);
      CountOnEntry(r, i, f);
    } else {
      CountOnMissing(days, date, f);
      CountOnMissing(r, date, f);
    }
  }

  /** Recording an event below the limits: the result is sound and small enough to be read back, holds only days of
      the window, and in the window each count is as before, one more for today's event. */
  lemma {:induction false} RecordedCounts(days: seq<Day>, today: string, retention: int, e: Event)
    requires Sound(days) && RealUtcDate(today) && ParseCivil(today).Some? && 1 <= retention <= MAX_DAY_ENTRIES
    requires CountOn(Prune(days, today, retention), today, e) < MAX_COUNT_PER_EVENT
    requires DayTotal(CountsOn(Prune(days, today, retention), today)) < MAX_EVENTS_PER_DAY
    ensures var r := Recorded(days, today, retention, e);
      && Sound(r) && |r| <= retention
      && (forall i :: 0 <= i < |r| ==> InWindow(r[i].date, today, retention))
      && forall date, f :: InWindow(date, today, retention) ==>
           CountOn(r, date, f) == CountOn(days, date, f) + if date == today && f == e then 1 else 0
  {
    hide RealUtcDate, ParseCivil, DayAccepted, Prune, DayOf, DayTotal, CountsOn;
    var pruned := Prune(days, today, retention);
    NeverDropsOldest(days, today, retention);
    PruneIsSound(days, today, retention);
    PrunedInWindow(days, today, retention);
    var added := AddDay(pruned, today, retention);
    if !Lists(pruned, today) {
      AddDayIsSound(pruned, today);
      assert added[|added| - 1].date == today;
      EmptyCounts(pruned, today);
    }
    BumpAddsOne(added, today, e);
    forall date, f | InWindow(date, today, retention)
      ensures CountOn(Recorded(days, today, retention, e), date, f) == CountOn(days, date, f) + if date == today
          && f == e then 1 else 0
    {
      PruneKeepsCount(days, today, retention, date, f);
    }
  }

  lemma EmptyCounts(pruned: seq<Day>, today: string)
    ensures DayTotal(CountsOn(pruned + [Day(today, map[])], today)) == 0
  {
  }

  lemma {:induction false} PrunedInWindow(days: seq<Day>, today: string, retention: int)
    requires Sound(days) && ParseCivil(today).Some?
    ensures var p := Prune(days, today, retention); forall i :: 0 <= i < |p| ==> InWindow(p[i].date, today, retention)
  {
    hide ParseCivil, Prune, DayOf, DayAccepted;
    var p := Prune(days, today, retention);
    forall i | 0 <= i < |p|
      ensures InWindow(p[i].date, today, retention)
    {
      PruneMembersOf(days, today, retention, i);
    }
  }

  lemma {:induction false} PruneMembersOf(days: seq<Day>, today: string, retention: int, i: nat)
    requires Sound(days) && ParseCivil(today).Some? && i < |Prune(days, today, retention)|
    ensures InWindow(Prune(days, today, retention)[i].date, today, retention)
  {
    hide ParseCivil, Prune, DayOf;
    PruneMembers(days, today, retention, Prune(days, today, retention)[i]);
  }

  // ----- Size -----

  lemma {:induction false} JoinLength(parts: seq<string>, bound: nat)
    requires forall i :: 0 <= i < |parts| ==> |parts[i]| <= bound
    ensures |Join(parts)| <= |parts| * (bound + 1)
  {
    if |parts| > 1 {
      JoinLength(parts[..|parts| - 1], bound);
    }
  }

  lemma EntryLength(counts: map<Event, int>, e: Event)
    requires CountsInRange(counts)
    ensures |Entry(counts, e)| <= 1 && forall i :: 0 <= i < |Entry(counts, e)| ==> |Entry(counts, e)[i]| <= 38
  {
    if e in counts && counts[e] > 0 {
      assert Pow10(4) == 10000 by {
        assert Pow10(2) == 100;
      }
      DecimalLength(counts[e], 4);
      assert |NameOf(e)| <= 31;
    }
  }

  lemma {:induction false} DayJsonLength(d: Day)
    requires DayAccepted(d)
    ensures |DayJson(d)| <= 150
  {
    hide RealUtcDate, Join, Entry;
    EntryLength(d.counts, CostSaved);
    EntryLength(d.counts, BillingDateSaved);
    EntryLength(d.counts, RenewalDecisionSaved);
    JoinLength(Entry(d.counts, CostSaved) + Entry(d.counts, BillingDateSaved) + Entry(d.counts, RenewalDecisionSaved), 38);
  }

  /** With the default size limit the text of a sound file always fits: the oversize refusal never happens. */
  lemma {:induction false} AlwaysFits(days: seq<Day>)
    requires Sound(days) && |days| <= MAX_DAY_ENTRIES
    ensures |Serialize(days)| <= DEFAULT_FILE_BYTES
  {
    hide RealUtcDate, ParseCivil, Join, Canonical, DayJson, DatePattern;
    CanonicalIsSound(days);
    var texts := DayTexts(Canonical(days));
    forall i | 0 <= i < |texts|
      ensures |texts[i]| <= 150
    {
      assert DayAccepted(Canonical(days)[i]);
      DayJsonLength(Canonical(days)[i]);
    }
    JoinLength(texts, 150);
  }
}
