/** The promises of the aggregate store, over every run of calls, idle ticks, jobs, failures and restarts. */
module MetricsTheorems {
  import opened Prelude
  import opened Calendar
  import opened CivilText
  import opened PlanningTime
  import opened MetricsFile
  import opened MetricsCounts
  import opened MetricsStore

  /** One event on one date. */
  datatype Mark = Mark(date: string, event: Event)

  /** `acked` are the records that returned; `lost` those whose event is in the file although they failed or never
      returned; `restarts` counts how often a process ended and another opened the store over the same file. */
  datatype World = World(s: State, now: int, acked: multiset<Mark>, lost: multiset<Mark>, restarts: nat)

  datatype Action =
    | CallInitialize
    | CallRecord(event: Event)
    | CallRetain
    | Tick(at: int)
    | CallClose
    | Run(io: Io, start: int, end: int)
    | Restart(at: int)
    | Die(io: Io, start: int, end: int)

  /** Whether a job added its event to the file. */
  predicate Wrote(s: State, io: Io, failed: Option<Reason>)
    requires s.queue != []
  {
    s.queue[0].RecordJob? && (failed.None? || (s.available && failed == Some(WriteFailed) && io.write.Ambiguous?))
  }

  function DoRun(w: World, g: Config, io: Io, start: int, end: int): World {
    if w.s.queue == [] || !(w.now <= start <= end) || !ClockReadable(start) then w
    else
      var (s, failed) := RunJob(w.s, g, io, start, end);
      var job := w.s.queue[0];
      w.(s := s, now := end,
         acked := if job.RecordJob? && failed.None? then w.acked + multiset{Mark(UtcDateKey(start), job.event)} else w.acked,
         lost := if failed.Some? && Wrote(w.s, io, failed) then w.lost + multiset{Mark(UtcDateKey(start), job.event)} else w.lost)
  }

  /** The process dies while the head of the queue runs, before the job returns: whatever it wrote stays in the file,
      and the next process opens the store over it. */
  function DoDie(w: World, g: Config, io: Io, start: int, end: int): World {
    if w.s.queue == [] || !(w.now <= start <= end) || !ClockReadable(start) then w
    else
      var (s, failed) := RunJob(w.s, g, io, start, end);
      w.(s := Opened(s.disk), now := end, restarts := w.restarts + 1,
         lost := if Wrote(w.s, io, failed) then w.lost + multiset{Mark(UtcDateKey(start), w.s.queue[0].event)} else w.lost)
  }

  function Do(w: World, g: Config, act: Action): World {
    match act
    case CallInitialize => w.(s := InitializeCall(w.s))
    case CallRecord(e) => w.(s := Enqueue(w.s, g, RecordJob(e)))
    case CallRetain => w.(s := Enqueue(w.s, g, RetainJob))
    case Tick(at) => if at < w.now then w else w.(s := IdleTick(w.s, g, at), now := at)
    case CallClose => w.(s := CloseCall(w.s))
    case Run(io, start, end) => DoRun(w, g, io, start, end)
    case Restart(at) => if at < w.now then w else w.(s := Opened(w.s.disk), now := at, restarts := w.restarts + 1)
    case Die(io, start, end) => DoDie(w, g, io, start, end)
  }

  function RunAll(w: World, g: Config, acts: seq<Action>): World
    decreases |acts|
  {
    if acts == [] then w else Do(RunAll(w, g, acts[..|acts| - 1]), g, acts[|acts| - 1])
  }

  // ----- What a job writes -----

  predicate Readable(s: State, g: Config) {
    s.disk.Some? ==> Parse(s.disk.value, g.maxBytes).Accepted?
  }

  function DiskDays(s: State, g: Config): (r: seq<Day>)
    requires Readable(s, g)
    ensures Sound(r) && DaysAccepted(r) && Dated(r)
  {
    hide Parse, DayAccepted, RealUtcDate, ParseCivil;
    if s.disk.None? then [] else Parse(s.disk.value, g.maxBytes).days
  }

  /** A file the parser cannot read is never overwritten, whatever is called and however often, and no event counts. */
  lemma {:induction false} UnreadableIsKept(w: World, g: Config, act: Action)
    requires !Readable(w.s, g)
    ensures Do(w, g, act).s.disk == w.s.disk && Do(w, g, act).acked == w.acked && Do(w, g, act).lost == w.lost
  {
    hide Readable, RunJob, ClockReadable, UtcDateKey;
    if (act.Run? || act.Die?) && w.s.queue != [] && ClockReadable(act.start) {
      UnreadableJob(w.s, g, act.io, act.start, act.end);
    }
  }

  /** So it is over every run, restarts included. */
  lemma {:induction false} UnreadableForever(w: World, g: Config, acts: seq<Action>)
    requires !Readable(w.s, g)
    ensures var v := RunAll(w, g, acts); v.s.disk == w.s.disk && v.acked == w.acked && v.lost == w.lost
    decreases |acts|
  {
    hide Do, Parse;
    if acts != [] {
      UnreadableForever(w, g, acts[..|acts| - 1]);
      UnreadableIsKept(RunAll(w, g, acts[..|acts| - 1]), g, acts[|acts| - 1]);
    }
  }

  lemma {:induction false} UnreadableJob(s: State, g: Config, io: Io, start: int, end: int)
    requires !Readable(s, g) && s.queue != [] && ClockReadable(start)
    ensures RunJob(s, g, io, start, end).0.disk == s.disk
    ensures s.queue[0].RecordJob? ==>
      var failed := RunJob(s, g, io, start, end).1; failed.Some? && (s.available ==> failed != Some(WriteFailed))
  {
    hide Load, Prune, Kept, ClockReadable, UtcDateKey, ParseCivil, Persist, CapReached, AddDay, Bump, DroppedDays,
      Readable, DaysAccepted, Sound;
    ReadableIgnoresQueue(s, g);
    UnreadableLoads(s.(queue := s.queue[1..]), g, io);
    KeyParses(start);
  }

  lemma ReadableIgnoresQueue(s: State, g: Config)
    requires s.queue != []
    ensures Readable(s.(queue := s.queue[1..]), g) == Readable(s, g)
  {
    hide Parse;
  }

  lemma UnreadableLoads(s: State, g: Config, io: Io)
    requires !Readable(s, g)
    ensures Load(s, g, io).1.LoadFailed? && Load(s, g, io).1.reason != WriteFailed && Load(s, g, io).0.disk == s.disk
    ensures Load(s, g, io).0.available == s.available
  {
    hide DaysAccepted;
  }

  /** What is written reads back as it was meant. */
  lemma {:induction false} WrittenReadsBack(days: seq<Day>, g: Config)
    requires Sound(days) && |days| <= MAX_DAY_ENTRIES && |Serialize(days)| <= g.maxBytes
    ensures Parse(Written(days), g.maxBytes) == Accepted(Canonical(days))
  {
    hide Sound, Canonical, Serialize, DaysAccepted;
    CanonicalIsSound(days);
    CanonicalIsNormal(days);
  }

  ghost predicate KeepsCounts(old': seq<Day>, new': seq<Day>, today: int, retention: int, added: Option<Mark>) {
    && (forall i :: 0 <= i < |new'| ==> ParseCivil(new'[i].date).Some? && DayOf(new'[i].date) <= today)
    && forall x, e :: InRetention(x, today, retention) ==>
         CountOn(new', x, e) == CountOn(old', x, e) + if added == Some(Mark(x, e)) then 1 else 0
  }

  predicate InRetention(date: string, today: int, retention: int) {
    ParseCivil(date).Some? && 0 <= today - DayOf(date) < retention
  }

  /** The days a job hands to the write. */
  lemma {:induction false} RecordedKeeps(days: seq<Day>, g: Config, now: int, e: Event)
    requires WithinParser(g) && Sound(days) && ClockReadable(now)
    requires ParseCivil(UtcDateKey(now)).Some?
    requires CapReached(AddDay(Prune(days, UtcDateKey(now), g.retentionDays), UtcDateKey(now), g.retentionDays), UtcDateKey(now), e, g).None?
    ensures var next := Recorded(days, UtcDateKey(now), g.retentionDays, e);
      Sound(next) && |next| <= MAX_DAY_ENTRIES
      && KeepsCounts(days, Canonical(next), DayOfTime(now), g.retentionDays, Some(Mark(UtcDateKey(now), e)))
  {
    hide ParseCivil, DayAccepted, Prune, UtcDateKey, ClockReadable, DayOf, Canonical, DayTotal, CountsOn, CountOn,
      RealUtcDate;
    var today := UtcDateKey(now);
    KeyParses(now);
    NeverDropsOldest(days, today, g.retentionDays);
    var pruned := Prune(days, today, g.retentionDays);
    if !Lists(pruned, today) {
      AddedIsEmpty(days, pruned, today, g.retentionDays, e);
    }
    RecordedCounts(days, today, g.retentionDays, e);
    var next := Recorded(days, today, g.retentionDays, e);
    CanonicalDates(next, today, g.retentionDays);
    forall x, f | InRetention(x, DayOfTime(now), g.retentionDays)
      ensures CountOn(Canonical(next), x, f) == CountOn(days, x, f) + if Some(Mark(today, e)) == Some(Mark(x, f)) then 1 else 0
    {
      CanonicalKeepsCount(next, x, f);
    }
  }

  lemma AddedIsEmpty(days: seq<Day>, pruned: seq<Day>, today: string, retention: int, e: Event)
    requires !Lists(pruned, today)
    ensures CountOn(pruned, today, e) == 0 && DayTotal(CountsOn(pruned, today)) == 0
  {
    CountOnMissing(pruned, today, CostSaved);
    CountOnMissing(pruned, today, BillingDateSaved);
    CountOnMissing(pruned, today, RenewalDecisionSaved);
    CountOnMissing(pruned, today, e);
    CountOfCountsOn(pruned, today, CostSaved);
    CountOfCountsOn(pruned, today, BillingDateSaved);
    CountOfCountsOn(pruned, today, RenewalDecisionSaved);
  }

  lemma {:induction false} CanonicalDates(days: seq<Day>, today: string, retention: int)
    requires Sound(days) && |days| <= MAX_DAY_ENTRIES && forall i :: 0 <= i < |days| ==> InWindow(days[i].date, today, retention)
    ensures forall i :: 0 <= i < |Canonical(days)| ==> InWindow(Canonical(days)[i].date, today, retention)
  {
    hide ParseCivil, DayAccepted, Canonical, DayOf, InWindow;
    CanonicalIsSound(days);
    forall i | 0 <= i < |Canonical(days)|
      ensures InWindow(Canonical(days)[i].date, today, retention)
    {
      assert Lists(days, Canonical(days)[i].date);
    }
  }

  lemma {:induction false} PrunedKeeps(days: seq<Day>, g: Config, now: int)
    requires WithinParser(g) && Sound(days) && ClockReadable(now) && ParseCivil(UtcDateKey(now)).Some?
    ensures var next := Prune(days, UtcDateKey(now), g.retentionDays);
      Sound(next) && |next| <= MAX_DAY_ENTRIES && KeepsCounts(days, Canonical(next), DayOfTime(now), g.retentionDays, None)
  {
    hide ParseCivil, DayAccepted, Prune, UtcDateKey, ClockReadable, DayOf, Canonical, CountOn, RealUtcDate;
    var today := UtcDateKey(now);
    KeyParses(now);
    PruneIsSound(days, today, g.retentionDays);
    NeverDropsOldest(days, today, g.retentionDays);
    PrunedInWindow(days, today, g.retentionDays);
    var next := Prune(days, today, g.retentionDays);
    CanonicalDates(next, today, g.retentionDays);
    forall x, f | InRetention(x, DayOfTime(now), g.retentionDays)
      ensures CountOn(Canonical(next), x, f) == CountOn(days, x, f)
    {
      PruneKeepsCount(days, today, g.retentionDays, x, f);
      CanonicalKeepsCount(next, x, f);
    }
  }

  lemma {:induction false} PersistKeeps(s: State, g: Config, next: seq<Day>, io: Io, end: int)
    requires Sound(next) && |next| <= MAX_DAY_ENTRIES
    ensures var (t, failed) := Persist(s, g, next, io, end);
      && (failed.None? || (failed == Some(WriteFailed) && io.write.Ambiguous?) ==>
            Readable(t, g) && t.disk.Some? && DiskDays(t, g) == Canonical(next))
      && (failed.Some? && !(failed == Some(WriteFailed) && io.write.Ambiguous?) ==> t.disk == s.disk)
      && (failed.Some? && failed != Some(WriteFailed) ==> failed == Some(SerializedOversized))
  {
    hide Sound, Canonical, Serialize, Parse, Written;
    if |Serialize(next)| <= g.maxBytes {
      WrittenReadsBack(next, g);
    }
  }

  lemma LoadReads(s: State, g: Config, io: Io)
    requires Readable(s, g)
    ensures var (t, l) := Load(s, g, io);
      && t.disk == s.disk && t.available == s.available
      && (!l.LoadFailed? ==> DaysOf(l) == DiskDays(s, g))
      && (l.LoadFailed? ==> l.reason != WriteFailed)
  {
    hide DaysAccepted, Sound;
  }

  /** A record either adds its own event to the file's counts, or leaves the file alone. */
  lemma {:induction false} RecordJobKeeps(s: State, g: Config, e: Event, io: Io, start: int, end: int)
    requires WithinParser(g) && Readable(s, g) && ClockReadable(start) && ParseCivil(UtcDateKey(start)).Some?
    ensures var (t, failed) := ApplyEvent(s, g, e, io, UtcDateKey(start), end);
      && Readable(t, g)
      && (if failed.None? || (s.available && failed == Some(WriteFailed) && io.write.Ambiguous?)
          then KeepsCounts(DiskDays(s, g), DiskDays(t, g), DayOfTime(start), g.retentionDays, Some(Mark(UtcDateKey(start), e)))
          else t.disk == s.disk)
  {
    hide Load, Prune, ClockReadable, UtcDateKey, ParseCivil, Persist, CapReached, AddDay, Bump, Sound, Canonical,
      KeepsCounts, Parse, DaysAccepted, WithinParser;
    LoadReads(s, g, io);
    var days := DiskDays(s, g);
    var added := AddDay(Prune(days, UtcDateKey(start), g.retentionDays), UtcDateKey(start), g.retentionDays);
    if CapReached(added, UtcDateKey(start), e, g).None? {
      RecordedKeeps(days, g, start, e);
      RecordedIsBump(days, UtcDateKey(start), g.retentionDays, e);
      PersistKeeps(MarkAvailable(Load(s, g, io).0), g, Bump(added, UtcDateKey(start), e), io, end);
    }
    CapsAreNotWrites(added, UtcDateKey(start), e, g);
  }

  lemma {:induction false} RecordedIsBump(days: seq<Day>, today: string, retention: int, e: Event)
    requires Dated(days) && ParseCivil(today).Some?
    ensures Recorded(days, today, retention, e) == Bump(AddDay(Prune(days, today, retention), today, retention), today, e)
  {
    hide Prune, AddDay, Bump, ParseCivil;
  }

  lemma CapsAreNotWrites(days: seq<Day>, today: string, e: Event, g: Config)
    ensures CapReached(days, today, e, g) != Some(WriteFailed)
  {
  }

  /** Cleaning up changes no count of the window. */
  lemma {:induction false} RetainJobKeeps(s: State, g: Config, io: Io, start: int, end: int)
    requires WithinParser(g) && Readable(s, g) && ClockReadable(start) && ParseCivil(UtcDateKey(start)).Some?
    ensures var t := RetainFile(s, g, io, UtcDateKey(start), end).0;
      Readable(t, g) && (t.disk == s.disk
          || KeepsCounts(DiskDays(s, g), DiskDays(t, g), DayOfTime(start), g.retentionDays, None))
  {
    hide Load, Prune, ClockReadable, UtcDateKey, ParseCivil, Persist, Sound, Canonical, KeepsCounts, Parse,
      DaysAccepted, WithinParser, Kept;
    LoadReads(s, g, io);
    PrunedKeeps(DiskDays(s, g), g, start);
    PersistKeeps(MarkAvailable(Load(s, g, io).0), g, Prune(DiskDays(s, g), UtcDateKey(start), g.retentionDays), io, end);
  }

  lemma {:induction false} InitializeJobKeeps(s: State, g: Config, io: Io, start: int, end: int)
    requires WithinParser(g) && Readable(s, g) && ClockReadable(start) && ParseCivil(UtcDateKey(start)).Some?
    ensures var t := InitializeFile(s, g, io, UtcDateKey(start), end);
      Readable(t, g) && (t.disk == s.disk
          || KeepsCounts(DiskDays(s, g), DiskDays(t, g), DayOfTime(start), g.retentionDays, None))
  {
    hide Load, Prune, ClockReadable, UtcDateKey, ParseCivil, Persist, Sound, Canonical, KeepsCounts, Parse,
      DaysAccepted, WithinParser, Kept;
    LoadReads(s, g, io);
    PrunedKeeps(DiskDays(s, g), g, start);
    PersistKeeps(MarkAvailable(Load(s, g, io).0), g, Prune(DiskDays(s, g), UtcDateKey(start), g.retentionDays), io, end);
  }

  // ----- The ledger -----

  predicate Dates(marks: multiset<Mark>, today: int) {
    forall m :: m in marks ==> ParseCivil(m.date).Some? && DayOf(m.date) <= today
  }

  predicate DiskNotAhead(s: State, g: Config, today: int)
    requires Readable(s, g)
  {
    forall i :: 0 <= i < |DiskDays(s, g)| ==> ParseCivil(DiskDays(s, g)[i].date).Some? && DayOf(DiskDays(s, g)[i].date) <= today
  }

  ghost predicate CountsAgree(s: State, g: Config, today: int, marks: multiset<Mark>)
    requires Readable(s, g)
  {
    forall x, e :: InRetention(x, today, g.retentionDays) ==> CountOn(DiskDays(s, g), x, e) == marks[Mark(x, e)]
  }

  /** The file can be read, holds nothing of the future, and counts exactly the given events of the window. */
  ghost predicate Holds(s: State, g: Config, today: int, marks: multiset<Mark>) {
    Readable(s, g) && DiskNotAhead(s, g, today) && Dates(marks, today) && CountsAgree(s, g, today, marks)
  }

  lemma {:induction false} HoldsLater(s: State, g: Config, today: int, later: int, marks: multiset<Mark>)
    requires Holds(s, g, today, marks) && today <= later
    ensures Holds(s, g, later, marks)
  {
    hide ParseCivil, DayOf, CountOn, DiskDays, Readable;
    forall x, e | InRetention(x, later, g.retentionDays)
      ensures CountOn(DiskDays(s, g), x, e) == marks[Mark(x, e)]
    {
      if DayOf(x) <= today {
        assert InRetention(x, today, g.retentionDays);
      } else {
        CountOnMissing(DiskDays(s, g), x, e);
      }
    }
  }

  lemma {:induction false} HoldsSameDisk(s: State, t: State, g: Config, today: int, marks: multiset<Mark>)
    requires Holds(s, g, today, marks) && t.disk == s.disk
    ensures Holds(t, g, today, marks)
  {
    hide ParseCivil, DayOf, CountOn, Parse;
    assert Readable(t, g) && DiskDays(t, g) == DiskDays(s, g);
  }

  lemma HoldsChanged(s: State, t: State, g: Config, today: int, marks: multiset<Mark>, added: Option<Mark>)
    requires Holds(s, g, today, marks) && Readable(t, g)
    requires KeepsCounts(DiskDays(s, g), DiskDays(t, g), today, g.retentionDays, added)
    requires added.Some? ==> ParseCivil(added.value.date).Some? && DayOf(added.value.date) <= today
    ensures Holds(t, g, today, if added.Some? then marks + multiset{added.value} else marks)
  {
    hide ParseCivil, DayOf, CountOn, DiskDays, Readable;
  }

  lemma {:induction false} StepHolds(w: World, g: Config, act: Action, base: multiset<Mark>)
    requires WithinParser(g) && Holds(w.s, g, DayOfTime(w.now), base + w.acked + w.lost)
    ensures var v := Do(w, g, act);
      w.now <= v.now && Holds(v.s, g, DayOfTime(v.now), base + v.acked + v.lost)
  {
    hide Holds, RunJob, ClockReadable, UtcDateKey;
    var v, marks := Do(w, g, act), base + w.acked + w.lost;
    LaterDay(w.now, v.now);
    if act.Run? || act.Die? {
      if w.s.queue != [] && w.now <= act.start <= act.end && ClockReadable(act.start) {
        LaterDay(w.now, act.start);
        LaterDay(act.start, act.end);
        HoldsLater(w.s, g, DayOfTime(w.now), DayOfTime(act.start), marks);
        JobHolds(w.s, g, act.io, act.start, act.end, marks);
        var t := RunJob(w.s, g, act.io, act.start, act.end).0;
        if Wrote(w.s, act.io, RunJob(w.s, g, act.io, act.start, act.end).1) {
          assert base + v.acked + v.lost == marks + multiset{Mark(UtcDateKey(act.start), w.s.queue[0].event)};
        } else {
          assert base + v.acked + v.lost == marks;
        }
        HoldsLater(t, g, DayOfTime(act.start), DayOfTime(act.end), base + v.acked + v.lost);
        HoldsSameDisk(t, v.s, g, DayOfTime(act.end), base + v.acked + v.lost);
      }
    } else {
      HoldsSameDisk(w.s, v.s, g, DayOfTime(w.now), marks);
      HoldsLater(v.s, g, DayOfTime(w.now), DayOfTime(v.now), marks);
    }
  }

  lemma LaterDay(a: int, b: int)
    ensures a <= b ==> DayOfTime(a) <= DayOfTime(b)
  {
  }

  lemma {:induction false} JobHolds(s: State, g: Config, io: Io, start: int, end: int, marks: multiset<Mark>)
    requires WithinParser(g) && s.queue != [] && ClockReadable(start) && Holds(s, g, DayOfTime(start), marks)
    ensures var (t, failed) := RunJob(s, g, io, start, end);
      Holds(t, g, DayOfTime(start), if Wrote(s, io, failed) then marks + multiset{Mark(UtcDateKey(start), s.queue[0].event)} else marks)
  {
    hide ApplyEvent, RetainFile, InitializeFile, KeepsCounts, ClockReadable, UtcDateKey, ParseCivil, DayOf, CountOn,
      DiskNotAhead, Dates, CountsAgree, WithinParser, Readable;
    KeyParses(start);
    var rest, today := s.(queue := s.queue[1..]), UtcDateKey(start);
    HoldsSameDisk(s, rest, g, DayOfTime(start), marks);
    var t := RunJob(s, g, io, start, end).0;
    match s.queue[0]
    case RecordJob(e) =>
      RecordJobKeeps(rest, g, e, io, start, end);
      var (u, failed) := ApplyEvent(rest, g, e, io, today, end);
      if Wrote(s, io, failed) {
        HoldsChanged(rest, u, g, DayOfTime(start), marks, Some(Mark(today, e)));
        HoldsSameDisk(u, t, g, DayOfTime(start), marks + multiset{Mark(today, e)});
      } else {
        HoldsSameDisk(rest, t, g, DayOfTime(start), marks);
      }
    case RetainJob =>
      RetainJobKeeps(rest, g, io, start, end);
      CleanedHolds(rest, RetainFile(rest, g, io, today, end).0, t, g, DayOfTime(start), marks);
    case InitializeJob =>
      InitializeJobKeeps(rest, g, io, start, end);
      CleanedHolds(rest, InitializeFile(rest, g, io, today, end), t, g, DayOfTime(start), marks);
  }

  lemma {:induction false} CleanedHolds(s: State, u: State, t: State, g: Config, today: int, marks: multiset<Mark>)
    requires Holds(s, g, today, marks) && Readable(u, g) && t.disk == u.disk
    requires u.disk == s.disk || KeepsCounts(DiskDays(s, g), DiskDays(u, g), today, g.retentionDays, None)
    ensures Holds(t, g, today, marks)
  {
    hide Holds, KeepsCounts, Readable;
    if u.disk == s.disk {
      HoldsSameDisk(s, t, g, today, marks);
    } else {
      HoldsReadable(s, g, today, marks);
      HoldsChanged(s, u, g, today, marks, None);
      HoldsSameDisk(u, t, g, today, marks);
    }
  }

  lemma HoldsReadable(s: State, g: Config, today: int, marks: multiset<Mark>)
    requires Holds(s, g, today, marks)
    ensures Readable(s, g)
  {
    hide Readable, CountOn, ParseCivil, DayOf;
  }

  /** Over every run, with a clock that does not go back: the file can be read back, and each count of the window is
      the number of acknowledged events of its date plus those lost to an ambiguous write or to the end of the process. */
  lemma {:induction false} FileCountsRecords(w: World, g: Config, acts: seq<Action>, base: multiset<Mark>)
    requires WithinParser(g) && Holds(w.s, g, DayOfTime(w.now), base + w.acked + w.lost)
    ensures var v := RunAll(w, g, acts);
      Holds(v.s, g, DayOfTime(v.now), base + v.acked + v.lost)
    decreases |acts|
  {
    hide Holds, Do;
    if acts != [] {
      FileCountsRecords(w, g, acts[..|acts| - 1], base);
      StepHolds(RunAll(w, g, acts[..|acts| - 1]), g, acts[|acts| - 1], base);
    }
  }

  // ----- The latch -----

  predicate AllRecords(q: seq<Job>) {
    forall i :: 0 <= i < |q| ==> q[i].RecordJob?
  }

  /** The program's own discipline: it initializes the store before anything else, and leaves cleaning up to the timer. */
  predicate Orderly(s: State, act: Action) {
    match act
    case CallRetain => false
    case CallInitialize => s.initialized || (s.queue == [] && s.available)
    case _ => true
  }

  ghost predicate OrderlyRun(w: World, g: Config, acts: seq<Action>)
    decreases |acts|
  {
    acts == [] || (OrderlyRun(w, g, acts[..|acts| - 1]) && Orderly(RunAll(w, g, acts[..|acts| - 1]).s, acts[|acts| - 1]))
  }

  /** Only the head of the queue can be a clean-up, only records wait behind a failure, and each process lost at most
      one event, by the failure that closed the store or by its end. */
  predicate Tidy(w: World) {
    var s := w.s;
    && (forall i :: 1 <= i < |s.queue| ==> s.queue[i].RecordJob?)
    && (!s.available ==> AllRecords(s.queue))
    && |s.queue| <= s.pendingWrites + (if s.queue != [] && s.queue[0].InitializeJob? then 1 else 0)
    && (s.queue != [] && s.queue[0].InitializeJob? ==> s.initialized && !s.timer)
    && (s.timer ==> s.initialized)
    && |w.lost| <= w.restarts + (if s.available then 0 else 1)
  }

  /** A record run after a failure writes nothing and counts for nothing. */
  lemma {:induction false} LatchedRecord(s: State, g: Config, io: Io, start: int, end: int)
    requires s.queue != [] && s.queue[0].RecordJob? && ClockReadable(start) && !s.available
    ensures var (t, failed) := RunJob(s, g, io, start, end);
      !t.available && t.disk == s.disk && failed.Some?
  {
    hide Load, Prune, ClockReadable, UtcDateKey, ParseCivil, Persist;
    KeyParses(start);
  }

  /** The calls' side of the state, which a job's body does not touch. */
  predicate SameCalls(s: State, t: State) {
    t.queue == s.queue && t.initialized == s.initialized && t.closed == s.closed && t.pendingWrites == s.pendingWrites
        && t.timer == s.timer
  }

  lemma LoadFrame(s: State, g: Config, io: Io)
    ensures SameCalls(s, Load(s, g, io).0)
  {
    hide Load;
  }

  lemma PersistFrame(s: State, g: Config, days: seq<Day>, io: Io, end: int)
    ensures SameCalls(s, Persist(s, g, days, io, end).0)
    ensures Persist(s, g, days, io, end).1 == Some(WriteFailed) ==> !Persist(s, g, days, io, end).0.available
    ensures Persist(s, g, days, io, end).1 != Some(WriteFailed) ==> Persist(s, g, days, io, end).0.available == s.available
  {
    hide Serialize, Written;
  }

  lemma {:induction false} ApplyFrame(s: State, g: Config, e: Event, io: Io, today: string, end: int)
    requires ParseCivil(today).Some?
    ensures var (t, failed) := ApplyEvent(s, g, e, io, today, end);
      SameCalls(s, t) && (failed == Some(WriteFailed) ==> !t.available)
  {
    hide Load, Prune, ParseCivil, Persist, CapReached, AddDay, Bump, Sound, DaysAccepted;
    LoadFrame(s, g, io);
    var (seen, loaded) := Load(s, g, io);
    if !loaded.LoadFailed? {
      SoundDays(loaded);
      var days := AddDay(Prune(DaysOf(loaded), today, g.retentionDays), today, g.retentionDays);
      CapsAreNotWrites(days, today, e, g);
      PersistFrame(MarkAvailable(seen), g, Bump(days, today, e), io, end);
    }
  }

  lemma {:induction false} CleanUpFrame(s: State, g: Config, io: Io, today: string, end: int)
    requires ParseCivil(today).Some?
    ensures SameCalls(s, RetainFile(s, g, io, today, end).0) && SameCalls(s, InitializeFile(s, g, io, today, end))
  {
    hide Load, Prune, ParseCivil, Persist, DroppedDays, Sound, DaysAccepted;
    LoadFrame(s, g, io);
    var (seen, loaded) := Load(s, g, io);
    if !loaded.LoadFailed? {
      SoundDays(loaded);
      PersistFrame(MarkAvailable(seen), g, Prune(DaysOf(loaded), today, g.retentionDays), io, end);
    }
  }

  /** What a job does to the calls' side of the state. */
  lemma {:induction false} JobFrame(s: State, g: Config, io: Io, start: int, end: int)
    requires s.queue != [] && ClockReadable(start)
    ensures var (t, failed) := RunJob(s, g, io, start, end);
      && t.queue == s.queue[1..] && t.initialized == s.initialized && t.closed == s.closed
      && t.pendingWrites == (if s.queue[0].InitializeJob? then s.pendingWrites else Max(0, s.pendingWrites - 1))
      && (t.timer ==> s.timer || s.queue[0].InitializeJob?)
      && (s.queue[0].RecordJob? && failed == Some(WriteFailed) ==> !t.available)
  {
    hide ApplyEvent, RetainFile, InitializeFile, ClockReadable, UtcDateKey, ParseCivil;
    KeyParses(start);
    var rest := s.(queue := s.queue[1..]);
    CleanUpFrame(rest, g, io, UtcDateKey(start), end);
    if s.queue[0].RecordJob? {
      ApplyFrame(rest, g, s.queue[0].event, io, UtcDateKey(start), end);
    }
  }

  lemma {:induction false} StepKeepsTidy(w: World, g: Config, act: Action)
    requires Tidy(w) && Orderly(w.s, act)
    ensures Tidy(Do(w, g, act))
  {
    hide RunJob, ClockReadable, UtcDateKey;
    if (act.Run? || act.Die?) && w.s.queue != [] && ClockReadable(act.start) {
      JobFrame(w.s, g, act.io, act.start, act.end);
      if !w.s.available {
        LatchedRecord(w.s, g, act.io, act.start, act.end);
      }
    }
  }

  /** The latch: once the store is unavailable it stays so, and no record, idle tick or waiting job writes again,
      until the process restarts. */
  lemma {:induction false} LatchHolds(w: World, g: Config, act: Action)
    requires Tidy(w) && Orderly(w.s, act) && !w.s.available && Do(w, g, act).restarts == w.restarts
    ensures var v := Do(w, g, act); !v.s.available && v.s.disk == w.s.disk && v.acked == w.acked && v.lost == w.lost
  {
    hide RunJob, ClockReadable, UtcDateKey;
    if act.Run? && w.s.queue != [] && ClockReadable(act.start) {
      LatchedRecord(w.s, g, act.io, act.start, act.end);
    }
  }

  lemma RestartsGrow(w: World, g: Config, act: Action)
    ensures w.restarts <= Do(w, g, act).restarts
  {
    hide RunJob, ClockReadable, UtcDateKey;
  }

  lemma {:induction false} RunRestartsGrow(w: World, g: Config, acts: seq<Action>)
    ensures w.restarts <= RunAll(w, g, acts).restarts
    decreases |acts|
  {
    hide Do;
    if acts != [] {
      RunRestartsGrow(w, g, acts[..|acts| - 1]);
      RestartsGrow(RunAll(w, g, acts[..|acts| - 1]), g, acts[|acts| - 1]);
    }
  }

  /** So it is in every continuation without a restart. */
  lemma {:induction false} LatchHoldsForever(w: World, g: Config, acts: seq<Action>)
    requires Tidy(w) && OrderlyRun(w, g, acts) && !w.s.available && RunAll(w, g, acts).restarts == w.restarts
    ensures var v := RunAll(w, g, acts); !v.s.available && v.s.disk == w.s.disk && v.acked == w.acked && v.lost == w.lost
    decreases |acts|
  {
    hide Tidy, Do, Orderly;
    if acts != [] {
      RunRestartsGrow(w, g, acts[..|acts| - 1]);
      RestartsGrow(RunAll(w, g, acts[..|acts| - 1]), g, acts[|acts| - 1]);
      LatchHoldsForever(w, g, acts[..|acts| - 1]);
      RunKeepsTidy(w, g, acts[..|acts| - 1]);
      LatchHolds(RunAll(w, g, acts[..|acts| - 1]), g, acts[|acts| - 1]);
    }
  }

  lemma {:induction false} RunKeepsTidy(w: World, g: Config, acts: seq<Action>)
    requires Tidy(w) && OrderlyRun(w, g, acts)
    ensures Tidy(RunAll(w, g, acts))
    decreases |acts|
  {
    hide Tidy, Do, Orderly;
    if acts != [] {
      RunKeepsTidy(w, g, acts[..|acts| - 1]);
      StepKeepsTidy(RunAll(w, g, acts[..|acts| - 1]), g, acts[|acts| - 1]);
    }
  }

  /** In an orderly run from a new store over a readable file: each count of the window is the number of its
      acknowledged and lost events, and all counts together exceed the acknowledged events by at most one for each
      restart, and one more while the store is unavailable. */
  lemma {:induction false} CountsExceedByRestarts(w: World, g: Config, acts: seq<Action>, base: multiset<Mark>)
    requires WithinParser(g) && w.s == Opened(w.s.disk) && w.acked == multiset{} && w.lost == multiset{} && w.restarts == 0
    requires Holds(w.s, g, DayOfTime(w.now), base) && OrderlyRun(w, g, acts)
    ensures var v := RunAll(w, g, acts);
      && Readable(v.s, g) && CountsAgree(v.s, g, DayOfTime(v.now), base + v.acked + v.lost)
      && |v.lost| <= v.restarts + (if v.s.available then 0 else 1)
  {
    hide Holds, RunAll, OrderlyRun, CountsAgree;
    assert base + w.acked + w.lost == base;
    FileCountsRecords(w, g, acts, base);
    RunKeepsTidy(w, g, acts);
    HoldsAgree(RunAll(w, g, acts), g, base);
  }

  lemma HoldsAgree(v: World, g: Config, base: multiset<Mark>)
    requires Holds(v.s, g, DayOfTime(v.now), base + v.acked + v.lost)
    ensures Readable(v.s, g) && CountsAgree(v.s, g, DayOfTime(v.now), base + v.acked + v.lost)
  {
    hide Readable, CountOn, ParseCivil, DayOf;
  }

  // ----- Without the discipline -----

  const WORKING := Io(false, false, false, Replaced)

  lemma WorkingLoad(s: State, g: Config, io: Io)
    requires Readable(s, g) && (s.disk.None? ==> !s.fileExpected) && !io.statFails && !io.readFails
    ensures !Load(s, g, io).1.LoadFailed?
  {
    hide DaysAccepted, Sound;
  }

  lemma {:induction false} CleanUpOpens(s: State, g: Config, today: string, end: int)
    requires ParseCivil(today).Some? && Readable(s, g) && (s.disk.None? ==> !s.fileExpected)
    ensures RetainFile(s, g, WORKING, today, end).0.available
    ensures !s.closed ==> InitializeFile(s, g, WORKING, today, end).available
    ensures s.closed ==> InitializeFile(s, g, WORKING, today, end) == s
  {
    hide Load, Prune, ParseCivil, Serialize, Written, DroppedDays, Sound, DaysAccepted, Readable;
    WorkingLoad(s, g, WORKING);
  }

  /** After a failure, with the disk working again, running the next job opens the store exactly when that job is not
      a record (a clean-up asked for directly, or a late initialization of a store not closed). */
  lemma {:induction false} OpensExactlyWhen(s: State, g: Config, start: int, end: int)
    requires s.queue != [] && ClockReadable(start) && !s.available && Readable(s, g) && (s.disk.None? ==> !s.fileExpected)
    ensures RunJob(s, g, WORKING, start, end).0.available <==> s.queue[0].RetainJob? || (s.queue[0].InitializeJob? && !s.closed)
  {
    hide ClockReadable, UtcDateKey, ParseCivil, Readable, RetainFile, InitializeFile, ApplyEvent;
    KeyParses(start);
    ReadableIgnoresQueue(s, g);
    CleanUpOpens(s.(queue := s.queue[1..]), g, UtcDateKey(start), end);
    if s.queue[0].RecordJob? {
      LatchedRecord(s, g, WORKING, start, end);
    }
  }

  const AMBIGUOUS := Io(false, false, false, Ambiguous)

  /** With fewer events counted than the limits allow, no limit is reached. */
  lemma {:induction false} BelowLimits(s: State, g: Config, now: int, e: Event, marks: multiset<Mark>)
    requires WithinParser(g) && ClockReadable(now) && Holds(s, g, DayOfTime(now), marks) && Readable(s, g)
    requires |marks| < g.maxPerEvent && |marks| < g.maxPerDay
    ensures ParseCivil(UtcDateKey(now)).Some?
    ensures var today := UtcDateKey(now);
      CapReached(AddDay(Prune(DiskDays(s, g), today, g.retentionDays), today, g.retentionDays), today, e, g).None?
  {
    hide Readable, ParseCivil, Prune, DayAccepted, UtcDateKey, ClockReadable, DayOf, CountOn, DiskDays, CountsOn,
      RealUtcDate;
    KeyParses(now);
    var today, days := UtcDateKey(now), DiskDays(s, g);
    var pruned := Prune(days, today, g.retentionDays);
    NeverDropsOldest(days, today, g.retentionDays);
    PruneIsSound(days, today, g.retentionDays);
    forall f
      ensures CountOn(AddDay(pruned, today, g.retentionDays), today, f) == marks[Mark(today, f)]
    {
      PruneKeepsCount(days, today, g.retentionDays, today, f);
      assert InRetention(today, DayOfTime(now), g.retentionDays);
      if !Lists(pruned, today) {
        AddDayIsSound(pruned, today);
      }
      CountOfCountsOn(AddDay(pruned, today, g.retentionDays), today, f);
    }
    NoMoreThanAll(marks, today);
    CountOfCountsOn(AddDay(pruned, today, g.retentionDays), today, CostSaved);
    CountOfCountsOn(AddDay(pruned, today, g.retentionDays), today, BillingDateSaved);
    CountOfCountsOn(AddDay(pruned, today, g.retentionDays), today, RenewalDecisionSaved);
  }

  lemma NoMoreThanAll(marks: multiset<Mark>, date: string)
    ensures marks[Mark(date, CostSaved)] + marks[Mark(date, BillingDateSaved)] + marks[Mark(date, RenewalDecisionSaved)] <= |marks|
    ensures forall e :: marks[Mark(date, e)] <= |marks|
  {
    var a, b, c := Mark(date, CostSaved), Mark(date, BillingDateSaved), Mark(date, RenewalDecisionSaved);
    var some: multiset<Mark> := multiset{}[a := marks[a]][b := marks[b]][c := marks[c]];
    assert marks == some + (marks - some);
    forall e
      ensures marks[Mark(date, e)] <= |marks|
    {
      assert some[a] <= |some| && some[b] <= |some| && some[c] <= |some|;
      assert e == CostSaved || e == BillingDateSaved || e == RenewalDecisionSaved;
    }
  }

  lemma {:induction false} AmbiguousRecord(s: State, g: Config, now: int, e: Event, marks: multiset<Mark>)
    requires WithinParser(g) && ClockReadable(now) && Holds(s, g, DayOfTime(now), marks)
    requires |marks| < g.maxPerEvent && |marks| < g.maxPerDay && g.maxBytes >= DEFAULT_FILE_BYTES
    requires s.available && s.queue != [] && s.queue[0] == RecordJob(e) && (s.disk.None? ==> !s.fileExpected)
    ensures RunJob(s, g, AMBIGUOUS, now, now).1 == Some(WriteFailed) && RunJob(s, g, AMBIGUOUS, now, now).0.disk.Some?
  {
    hide Readable, ParseCivil, Prune, DayAccepted, UtcDateKey, ClockReadable, DayOf, CountOn, DiskDays, CountsOn,
      RealUtcDate, Load, Holds, CapReached, AddDay, Bump, Canonical, Serialize, DaysAccepted;
    KeyParses(now);
    HoldsReadable(s, g, DayOfTime(now), marks);
    var rest, today := s.(queue := s.queue[1..]), UtcDateKey(now);
    ReadableIgnoresQueue(s, g);
    HoldsSameDisk(s, rest, g, DayOfTime(now), marks);
    WorkingLoad(rest, g, AMBIGUOUS);
    LoadReads(rest, g, AMBIGUOUS);
    BelowLimits(rest, g, now, e, marks);
    RecordedKeeps(DiskDays(rest, g), g, now, e);
    RecordedIsBump(DiskDays(rest, g), today, g.retentionDays, e);
    AlwaysFits(Recorded(DiskDays(rest, g), today, g.retentionDays, e));
  }

  lemma NothingYet(g: Config, today: int)
    ensures Holds(Opened(None), g, today, multiset{})
  {
    hide ParseCivil, DayOf;
  }

  function NewStore(now: int): World {
    World(Opened(None), now, multiset{}, multiset{}, 0)
  }

  /** A record fails ambiguously while a clean-up waits. */
  lemma {:induction false} FirstLoss(g: Config, now: int, e: Event, w: World)
    requires WithinParser(g) && ClockReadable(now)
    requires g.maxPerEvent >= 2 && g.maxPerDay >= 2 && g.maxBytes >= DEFAULT_FILE_BYTES && g.maxPending >= 2
    requires w == Do(Do(Do(NewStore(now), g, CallRecord(e)), g, CallRetain), g, Run(AMBIGUOUS, now, now))
    ensures w.now == now && w.acked == multiset{} && w.lost == multiset{Mark(UtcDateKey(now), e)} && w.restarts == 0
    ensures w.s.queue == [RetainJob] && w.s.pendingWrites == 1 && !w.s.available && !w.s.closed && w.s.disk.Some?
    ensures Holds(w.s, g, DayOfTime(now), w.lost)
  {
    hide Holds, RunJob, UtcDateKey, ClockReadable, Readable;
    NothingYet(g, DayOfTime(now));
    var before := Do(Do(NewStore(now), g, CallRecord(e)), g, CallRetain);
    assert before.s == NewStore(now).s.(pendingWrites := 2, queue := [RecordJob(e), RetainJob]);
    HoldsSameDisk(NewStore(now).s, before.s, g, DayOfTime(now), multiset{});
    AmbiguousRecord(before.s, g, now, e, multiset{});
    JobFrame(before.s, g, AMBIGUOUS, now, now);
    assert multiset{} + before.acked + before.lost == multiset{};
    StepHolds(before, g, Run(AMBIGUOUS, now, now), multiset{});
    assert multiset{} + w.acked + w.lost == w.lost;
  }

  /** The clean-up opens the store, and a second record fails ambiguously. */
  lemma {:induction false} SecondLoss(g: Config, now: int, e: Event, w: World)
    requires WithinParser(g) && ClockReadable(now)
    requires g.maxPerEvent >= 2 && g.maxPerDay >= 2 && g.maxBytes >= DEFAULT_FILE_BYTES && g.maxPending >= 2
    requires w.now == now && w.acked == multiset{} && w.lost == multiset{Mark(UtcDateKey(now), e)} && w.restarts == 0
    requires w.s.queue == [RetainJob] && w.s.pendingWrites == 1 && !w.s.available && !w.s.closed && w.s.disk.Some?
    requires Holds(w.s, g, DayOfTime(now), w.lost)
    ensures var v := Do(Do(Do(w, g, Run(WORKING, now, now)), g, CallRecord(e)), g, Run(AMBIGUOUS, now, now));
      && v.now == now && v.acked == multiset{} && v.restarts == 0
      && v.lost == multiset{Mark(UtcDateKey(now), e), Mark(UtcDateKey(now), e)} && Holds(v.s, g, DayOfTime(now), v.lost)
  {
    hide Holds, RunJob, UtcDateKey, ClockReadable, Readable;
    HoldsReadable(w.s, g, DayOfTime(now), w.lost);
    OpensExactlyWhen(w.s, g, now, now);
    JobFrame(w.s, g, WORKING, now, now);
    RetainKeepsFile(w.s, g, now);
    assert multiset{} + w.acked + w.lost == w.lost;
    StepHolds(w, g, Run(WORKING, now, now), multiset{});
    var reopened := Do(w, g, Run(WORKING, now, now));
    assert multiset{} + reopened.acked + reopened.lost == w.lost;
    var again := Do(reopened, g, CallRecord(e));
    assert again.s.queue == [RecordJob(e)] && again.s.available;
    HoldsSameDisk(reopened.s, again.s, g, DayOfTime(now), w.lost);
    AmbiguousRecord(again.s, g, now, e, w.lost);
    assert multiset{} + again.acked + again.lost == w.lost;
    StepHolds(again, g, Run(AMBIGUOUS, now, now), multiset{});
    var v := Do(again, g, Run(AMBIGUOUS, now, now));
    assert multiset{} + v.acked + v.lost == v.lost;
  }

  /** A clean-up asked for directly, while a record waits that will fail ambiguously, opens the store again: a second
      ambiguous failure then makes the file exceed the acknowledged events by two, without a restart. */
  lemma {:induction false} DirectCleanUpLosesTheLatch(g: Config, now: int, e: Event)
    requires WithinParser(g) && ClockReadable(now)
    requires g.maxPerEvent >= 2 && g.maxPerDay >= 2 && g.maxBytes >= DEFAULT_FILE_BYTES && g.maxPending >= 2
    ensures exists acts :: var v := RunAll(NewStore(now), g, acts);
      && v.now == now && v.acked == multiset{} && v.restarts == 0
      && v.lost == multiset{Mark(UtcDateKey(now), e), Mark(UtcDateKey(now), e)} && Holds(v.s, g, DayOfTime(now), v.lost)
  {
    hide Holds, Do, UtcDateKey, ClockReadable, RunAll;
    var acts := [CallRecord(e), CallRetain, Run(AMBIGUOUS, now, now), Run(WORKING, now, now), CallRecord(e), Run(AMBIGUOUS, now, now)];
    var w := Do(Do(Do(NewStore(now), g, CallRecord(e)), g, CallRetain), g, Run(AMBIGUOUS, now, now));
    FirstLoss(g, now, e, w);
    SecondLoss(g, now, e, w);
    RunSix(NewStore(now), g, acts);
  }

  lemma {:induction false} RetainKeepsFile(s: State, g: Config, now: int)
    requires s.queue != [] && s.queue[0].RetainJob? && s.disk.Some? && ClockReadable(now)
    ensures RunJob(s, g, WORKING, now, now).0.disk.Some?
  {
    hide Load, Prune, ParseCivil, Serialize, Written, DroppedDays, Sound, DaysAccepted, UtcDateKey, ClockReadable;
    KeyParses(now);
  }

  lemma {:induction false} RunSix(w: World, g: Config, acts: seq<Action>)
    requires |acts| == 6
    ensures RunAll(w, g, acts) == Do(Do(Do(Do(Do(Do(w, g, acts[0]), g, acts[1]), g, acts[2]), g, acts[3]), g, acts[4]), g, acts[5])
  {
    hide Do;
    assert acts[..5][..4] == acts[..4] && acts[..4][..3] == acts[..3] && acts[..3][..2] == acts[..2]
        && acts[..2][..1] == acts[..1] && acts[..1][..0] == [];
    assert RunAll(w, g, acts[..1]) == Do(w, g, acts[0]);
    assert RunAll(w, g, acts[..2]) == Do(RunAll(w, g, acts[..1]), g, acts[1]);
    assert RunAll(w, g, acts[..3]) == Do(RunAll(w, g, acts[..2]), g, acts[2]);
    assert RunAll(w, g, acts[..4]) == Do(RunAll(w, g, acts[..3]), g, acts[3]);
    assert RunAll(w, g, acts[..5]) == Do(RunAll(w, g, acts[..4]), g, acts[4]);
  }

  // ----- The bound is reached -----

  /** `k` processes in turn were asked to record the event and died with its write in the file. */
  function Deaths(now: int, e: Event, k: nat): seq<Action> {
    if k == 0 then [] else Deaths(now, e, k - 1) + [CallRecord(e)] + [Die(AMBIGUOUS, now, now)]
  }

  lemma {:induction false} RunTwo(w: World, g: Config, acts: seq<Action>, a: Action, b: Action)
    ensures RunAll(w, g, acts + [a] + [b]) == Do(Do(RunAll(w, g, acts), g, a), g, b)
    ensures OrderlyRun(w, g, acts) && Orderly(RunAll(w, g, acts).s, a) && Orderly(Do(RunAll(w, g, acts), g, a).s, b)
            ==> OrderlyRun(w, g, acts + [a] + [b])
  {
    hide Do, Orderly;
    assert (acts + [a] + [b])[..|acts| + 1] == acts + [a] && (acts + [a])[..|acts|] == acts;
    assert RunAll(w, g, acts + [a]) == Do(RunAll(w, g, acts), g, a);
  }

  /** For every number of restarts the limits allow, an orderly run loses an event with each. */
  lemma {:induction false} DeathsLoseOneEach(g: Config, now: int, e: Event, k: nat)
    requires WithinParser(g) && ClockReadable(now) && g.maxBytes >= DEFAULT_FILE_BYTES
    requires k <= g.maxPerEvent && k <= g.maxPerDay
    ensures OrderlyRun(NewStore(now), g, Deaths(now, e, k))
    ensures var v := RunAll(NewStore(now), g, Deaths(now, e, k));
      && v.now == now && v.s == Opened(v.s.disk) && v.restarts == k && v.acked == multiset{}
      && |v.lost| == k && Holds(v.s, g, DayOfTime(now), v.lost)
  {
    hide Holds, Do, UtcDateKey, ClockReadable, RunAll, OrderlyRun;
    if k == 0 {
      NothingYet(g, DayOfTime(now));
      RunNothing(NewStore(now), g);
    } else {
      DeathsLoseOneEach(g, now, e, k - 1);
      var w := RunAll(NewStore(now), g, Deaths(now, e, k - 1));
      DeathLosesOne(w, g, now, e);
      RunTwo(NewStore(now), g, Deaths(now, e, k - 1), CallRecord(e), Die(AMBIGUOUS, now, now));
    }
  }

  lemma RunNothing(w: World, g: Config)
    ensures RunAll(w, g, []) == w && OrderlyRun(w, g, [])
  {
  }

  lemma {:induction false} DeathLosesOne(w: World, g: Config, now: int, e: Event)
    requires WithinParser(g) && ClockReadable(now) && g.maxBytes >= DEFAULT_FILE_BYTES
    requires w.now == now && w.s == Opened(w.s.disk) && w.acked == multiset{} && Holds(w.s, g, DayOfTime(now), w.lost)
    requires |w.lost| < g.maxPerEvent && |w.lost| < g.maxPerDay
    ensures var v := Do(Do(w, g, CallRecord(e)), g, Die(AMBIGUOUS, now, now));
      && v.now == now && v.s == Opened(v.s.disk) && v.restarts == w.restarts + 1 && v.acked == multiset{}
      && |v.lost| == |w.lost| + 1 && Holds(v.s, g, DayOfTime(now), v.lost)
  {
    hide Holds, RunJob, UtcDateKey, ClockReadable, Readable;
    var called := Do(w, g, CallRecord(e));
    assert called.s == w.s.(pendingWrites := 1, queue := [RecordJob(e)]);
    HoldsSameDisk(w.s, called.s, g, DayOfTime(now), w.lost);
    AmbiguousRecord(called.s, g, now, e, w.lost);
    assert multiset{} + called.acked + called.lost == w.lost;
    StepHolds(called, g, Die(AMBIGUOUS, now, now), multiset{});
    var v := Do(called, g, Die(AMBIGUOUS, now, now));
    assert multiset{} + v.acked + v.lost == v.lost;
  }
}
