/**
  The store of the marketing counts: calls that are accepted or refused at once, and a queue of jobs that run one
  after the other, each of them a read, a check, a change and an atomic write. A job runs as one step, because
  nothing it reads is changed by the calls made while it waits. One process writes the file.
*/
module MetricsStore {
  import opened Prelude
  import opened Calendar
  import opened CivilText
  import opened PlanningTime
  import opened MetricsFile
  import opened MetricsCounts

  datatype Config = Config(retentionDays: nat, maxPerEvent: nat, maxPerDay: nat, maxBytes: nat, maxPending: nat, idleThreshold: int)

  /** The limits the parser has of its own; a wider configuration would write files it refuses to read. */
  predicate WithinParser(g: Config) {
    1 <= g.retentionDays <= MAX_DAY_ENTRIES && g.maxPerEvent <= MAX_COUNT_PER_EVENT && g.maxPerDay <= MAX_EVENTS_PER_DAY
  }

  datatype Job = InitializeJob | RecordJob(event: Event) | RetainJob

  /** A failed write may have replaced the file or not. */
  datatype WriteOutcome = Replaced | Unchanged | Ambiguous

  datatype Io = Io(directoryFails: bool, statFails: bool, readFails: bool, write: WriteOutcome)

  datatype State = State(
    available: bool, reason: Option<Reason>, pendingWrites: nat, closed: bool, initialized: bool, timer: bool,
    fileExpected: bool, lastWriteAt: int, queue: seq<Job>, disk: Option<Contents>)

  /** What a process opens the store with. */
  function Opened(disk: Option<Contents>): State {
    State(true, None, 0, false, false, false, false, 0, [], disk)
  }

  // ----- Calls -----

  /** What stands in the way of a new write, if anything. */
  function Refusal(s: State, g: Config): Option<Reason> {
    if s.closed then Some(Closed)
    else if !s.available then Some(if s.reason.Some? then s.reason.value else Unexpected)
    else if s.pendingWrites >= Max(1, g.maxPending) then Some(QueueFull)
    else None
  }

  function Enqueue(s: State, g: Config, job: Job): State {
    if Refusal(s, g).Some? then s else s.(pendingWrites := s.pendingWrites + 1, queue := s.queue + [job])
  }

  function InitializeCall(s: State): State {
    if s.initialized then s else s.(initialized := true, queue := s.queue + [InitializeJob])
  }

  function IdleTick(s: State, g: Config, now: int): State {
    if !s.timer || s.closed || s.pendingWrites > 0
        || now - s.lastWriteAt < g.idleThreshold then s else Enqueue(s, g, RetainJob)
  }

  function CloseCall(s: State): State {
    s.(closed := true, timer := false)
  }

  // ----- Jobs -----

  function MarkUnavailable(s: State, reason: Reason): State {
    s.(available := false, reason := Some(reason))
  }

  function MarkAvailable(s: State): State {
    s.(available := true, reason := None)
  }

  datatype Loaded = Missing | File(days: seq<Day>) | LoadFailed(reason: Reason)

  function Load(s: State, g: Config, io: Io): (r: (State, Loaded))
    ensures r.1.File? ==> Sound(r.1.days) && DaysAccepted(r.1.days)
    ensures r.0 == s || r.0 == s.(fileExpected := true)
  {
    if io.statFails then (s, LoadFailed(ReadFailed))
    else if s.disk.None? then (s, if s.fileExpected then LoadFailed(ReadFailed) else Missing)
    else
      var seen := s.(fileExpected := true);
      if s.disk.value.bytes > g.maxBytes then (seen, LoadFailed(FileTooLarge))
      else if io.readFails then (seen, LoadFailed(ReadFailed))
      else match Parse(s.disk.value, g.maxBytes)
        case Refused(reason) => (seen, LoadFailed(reason))
        case Accepted(days) => (seen, File(days))
  }

  function Written(days: seq<Day>): Contents {
    Aggregate(|Serialize(days)|, Canonical(days))
  }

  function Persist(s: State, g: Config, days: seq<Day>, io: Io, end: int): (State, Option<Reason>) {
    if |Serialize(days)| > g.maxBytes then (s, Some(SerializedOversized))
    else match io.write
      case Replaced => (s.(disk := Some(Written(days)), lastWriteAt := end, fileExpected := true), None)
      case Unchanged => (MarkUnavailable(s, WriteFailed), Some(WriteFailed))
      case Ambiguous => (MarkUnavailable(s.(disk := Some(Written(days))), WriteFailed), Some(WriteFailed))
  }

  /** Today as a date text; the clock is taken to be in the years the texts can write. */
  predicate ClockReadable(now: int) {
    RealDay(DayOfTime(now)) && CivilOf(DayOfTime(now)).year >= 100
  }

  function UtcDateKey(now: int): string
    requires ClockReadable(now)
  {
    DayText(DayOfTime(now))
  }

  function DaysOf(l: Loaded): seq<Day>
    requires !l.LoadFailed?
  {
    if l.Missing? then [] else l.days
  }

  /** The limits of one day, checked before anything is written. */
  function CapReached(days: seq<Day>, today: string, e: Event, g: Config): Option<Reason> {
    if CountOn(days, today, e) >= g.maxPerEvent then Some(DailyEventCap)
    else if DayTotal(CountsOn(days, today)) >= g.maxPerDay then Some(DailyTotalCap)
    else None
  }

  function ApplyEvent(s: State, g: Config, e: Event, io: Io, today: string, end: int): (State, Option<Reason>)
    requires ParseCivil(today).Some?
  {
    if !s.available then
      var reason := if s.reason.Some? then s.reason.value else Unexpected;
      (MarkUnavailable(s, reason), Some(reason))
    else
      var (seen, loaded) := Load(s, g, io);
      if loaded.LoadFailed? then (MarkUnavailable(seen, loaded.reason), Some(loaded.reason))
      else
        var ready := MarkAvailable(seen);
        var days := AddDay(Prune(DaysOf(loaded), today, g.retentionDays), today, g.retentionDays);
        var cap := CapReached(days, today, e, g);
        if cap.Some? then (ready, cap) else Persist(ready, g, Bump(days, today, e), io, end)
  }

  function DroppedDays(days: seq<Day>, today: string, retention: int): int
    requires Dated(days) && ParseCivil(today).Some?
  {
    |days| - |Kept(days, today, retention)|
  }

  function RetainFile(s: State, g: Config, io: Io, today: string, end: int): (State, Option<Reason>)
    requires ParseCivil(today).Some?
  {
    var (seen, loaded) := Load(s, g, io);
    if loaded.LoadFailed? then (MarkUnavailable(seen, loaded.reason), Some(loaded.reason))
    else
      var ready := MarkAvailable(seen);
      if loaded.Missing? || DroppedDays(loaded.days, today, g.retentionDays) == 0 then (ready, None)
      else Persist(ready, g, Prune(loaded.days, today, g.retentionDays), io, end)
  }

  function InitializeFile(s: State, g: Config, io: Io, today: string, end: int): State
    requires ParseCivil(today).Some?
  {
    if s.closed then s
    else if io.directoryFails then MarkUnavailable(s, DirectoryUnavailable)
    else
      var (seen, loaded) := Load(s, g, io);
      if loaded.LoadFailed? then MarkUnavailable(seen, loaded.reason)
      else
        var ready := MarkAvailable(seen);
        if loaded.Missing? || DroppedDays(loaded.days, today, g.retentionDays) > 0 then
          Persist(ready, g, Prune(DaysOf(loaded), today, g.retentionDays), io, end).0
        else ready
  }

  /** Runs the job at the head of the queue, which reads the clock first at `start` and last at `end`. */
  function RunJob(s: State, g: Config, io: Io, start: int, end: int): (State, Option<Reason>)
    requires s.queue != [] && ClockReadable(start)
  {
    var rest := s.(queue := s.queue[1..]);
    match s.queue[0]
    case InitializeJob =>
      var done := InitializeFile(rest, g, io, UtcDateKey(start), end);
      (done.(timer := done.timer || !done.closed), None)
    case RecordJob(e) =>
      var (done, reason) := ApplyEvent(rest, g, e, io, UtcDateKey(start), end);
      (done.(pendingWrites := Max(0, done.pendingWrites - 1)), reason)
    case RetainJob =>
      var (done, reason) := RetainFile(rest, g, io, UtcDateKey(start), end);
      (done.(pendingWrites := Max(0, done.pendingWrites - 1)), reason)
  }

  // ----- The store object -----

  class MarketingMetricsStore {
    const config: Config
    var available: bool
    var reason: Option<Reason>
    var pendingWrites: nat
    var closed: bool
    var initialized: bool
    var timer: bool
    var fileExpected: bool
    var lastWriteAt: int
    var queue: seq<Job>
    var disk: Option<Contents>

    constructor (config: Config, disk: Option<Contents>)
      ensures this.config == config && Current() == Opened(disk)
    {
      this.config, this.disk := config, disk;
      available, reason, pendingWrites, closed, initialized, timer := true, None, 0, false, false, false;
      fileExpected, lastWriteAt, queue := false, 0, [];
    }

    function Current(): State
      reads this
    {
      State(available, reason, pendingWrites, closed, initialized, timer, fileExpected, lastWriteAt, queue, disk)
    }

    method Initialize()
      modifies this
      ensures Current() == InitializeCall(old(Current()))
    {
      if !initialized {
        initialized := true;
        queue := queue + [InitializeJob];
      }
    }

    /** The part of a record that runs before it waits in the queue. */
    method Record(event: Event) returns (refused: Option<Reason>)
      modifies this
      ensures refused == Refusal(old(Current()), config) && Current() == Enqueue(old(Current()), config, RecordJob(event))
    {
      refused := CheckCall();
      if refused.None? {
        pendingWrites := pendingWrites + 1;
        queue := queue + [RecordJob(event)];
      }
    }

    method RetainNow() returns (refused: Option<Reason>)
      modifies this
      ensures refused == Refusal(old(Current()), config) && Current() == Enqueue(old(Current()), config, RetainJob)
    {
      refused := CheckCall();
      if refused.None? {
        pendingWrites := pendingWrites + 1;
        queue := queue + [RetainJob];
      }
    }

    method CheckCall() returns (refused: Option<Reason>)
      ensures refused == Refusal(Current(), config)
    {
      if closed {
        return Some(Closed);
      }
      if !available {
        return Some(if reason.Some? then reason.value else Unexpected);
      }
      refused := if pendingWrites >= Max(1, config.maxPending) then Some(QueueFull) else None;
    }

    method Tick(now: int)
      modifies this
      ensures Current() == IdleTick(old(Current()), config, now)
    {
      if !timer || closed || pendingWrites > 0 || now - lastWriteAt < config.idleThreshold {
        return;
      }
      var _ := RetainNow();
    }

    method Close()
      modifies this
      ensures Current() == CloseCall(old(Current()))
    {
      closed, timer := true, false;
    }

    method LoadFile(io: Io) returns (loaded: Loaded)
      modifies this`fileExpected
      ensures (Current(), loaded) == Load(old(Current()), config, io)
    {
      hide Sound, DaysAccepted;
      if io.statFails {
        return LoadFailed(ReadFailed);
      }
      if disk.None? {
        return if fileExpected then LoadFailed(ReadFailed) else Missing;
      }
      fileExpected := true;
      if disk.value.bytes > config.maxBytes {
        return LoadFailed(FileTooLarge);
      }
      if io.readFails {
        return LoadFailed(ReadFailed);
      }
      var parsed := ParseMarketingMetricsFile(disk.value, config.maxBytes);
      loaded := if parsed.Accepted? then File(parsed.days) else LoadFailed(parsed.reason);
    }

    method PersistFile(days: seq<Day>, io: Io, end: int) returns (failed: Option<Reason>)
      modifies this
      ensures (Current(), failed) == Persist(old(Current()), config, days, io, end)
    {
      hide Serialize, Canonical;
      if |Serialize(days)| > config.maxBytes {
        return Some(SerializedOversized);
      }
      if !io.write.Unchanged? {
        disk := Some(Written(days));
      }
      if !io.write.Replaced? {
        available, reason := false, Some(WriteFailed);
        return Some(WriteFailed);
      }
      lastWriteAt, fileExpected := end, true;
      failed := None;
    }

    method ApplyEventLocked(event: Event, io: Io, today: string, end: int) returns (failed: Option<Reason>)
      requires ParseCivil(today).Some?
      modifies this
      ensures (Current(), failed) == ApplyEvent(old(Current()), config, event, io, today, end)
    {
      hide ParseCivil, Sound, DaysAccepted, Prune, Load, Persist, CountOn, CountsOn, Lists, DayTotal, Dated;
      if !available {
        var because := if reason.Some? then reason.value else Unexpected;
        available, reason := false, Some(because);
        return Some(because);
      }
      var loaded := LoadFile(io);
      if loaded.LoadFailed? {
        available, reason := false, Some(loaded.reason);
        return Some(loaded.reason);
      }
      available, reason := true, None;
      SoundDays(loaded);
      var days, _ := PruneMarketingMetricsDays(DaysOf(loaded), today, config.retentionDays);
      if !Lists(days, today) {
        if |days| >= config.retentionDays && days != [] {
          days := days[1..];
        }
        days := days + [Day(today, map[])];
      }
      if CountOn(days, today, event) >= config.maxPerEvent {
        return Some(DailyEventCap);
      }
      if DayTotal(CountsOn(days, today)) >= config.maxPerDay {
        return Some(DailyTotalCap);
      }
      failed := PersistFile(Bump(days, today, event), io, end);
    }

    method RetainLocked(io: Io, today: string, end: int) returns (failed: Option<Reason>)
      requires ParseCivil(today).Some?
      modifies this
      ensures (Current(), failed) == RetainFile(old(Current()), config, io, today, end)
    {
      hide ParseCivil, Sound, DaysAccepted, Prune, Load, Persist, Dated;
      var loaded := LoadFile(io);
      if loaded.LoadFailed? {
        available, reason := false, Some(loaded.reason);
        return Some(loaded.reason);
      }
      available, reason := true, None;
      if loaded.Missing? {
        return None;
      }
      SoundDays(loaded);
      var days, dropped := PruneMarketingMetricsDays(loaded.days, today, config.retentionDays);
      if dropped == 0 {
        return None;
      }
      failed := PersistFile(days, io, end);
    }

    method InitializeLocked(io: Io, today: string, end: int)
      requires ParseCivil(today).Some?
      modifies this
      ensures Current() == InitializeFile(old(Current()), config, io, today, end)
    {
      hide ParseCivil, Sound, DaysAccepted, Prune, Load, Persist, Dated;
      if closed {
        return;
      }
      if io.directoryFails {
        available, reason := false, Some(DirectoryUnavailable);
        return;
      }
      var loaded := LoadFile(io);
      if loaded.LoadFailed? {
        available, reason := false, Some(loaded.reason);
        return;
      }
      available, reason := true, None;
      SoundDays(loaded);
      var days, dropped := PruneMarketingMetricsDays(DaysOf(loaded), today, config.retentionDays);
      if loaded.Missing? || dropped > 0 {
        var _ := PersistFile(days, io, end);
      }
    }

    /** One turn of the serializing chain. */
    method RunNext(io: Io, start: int, end: int) returns (failed: Option<Reason>)
      requires queue != [] && ClockReadable(start)
      modifies this
      ensures (Current(), failed) == RunJob(old(Current()), config, io, start, end)
    {
      hide ParseCivil, ApplyEvent, RetainFile, InitializeFile, UtcDateKey, ClockReadable;
      KeyParses(start);
      var job := queue[0];
      queue := queue[1..];
      failed := None;
      match job
      case InitializeJob =>
        InitializeLocked(io, UtcDateKey(start), end);
        timer := timer || !closed;
      case RecordJob(e) =>
        failed := ApplyEventLocked(e, io, UtcDateKey(start), end);
        pendingWrites := Max(0, pendingWrites - 1);
      case RetainJob =>
        failed := RetainLocked(io, UtcDateKey(start), end);
        pendingWrites := Max(0, pendingWrites - 1);
    }
  }

  lemma SoundDays(l: Loaded)
    requires !l.LoadFailed? && (l.File? ==> Sound(l.days))
    ensures Dated(DaysOf(l))
  {
    hide DayAccepted, ParseCivil;
  }

  lemma {:induction false} KeyParses(now: int)
    requires ClockReadable(now)
    ensures ParseCivil(UtcDateKey(now)).Some? && DayOf(UtcDateKey(now)) == DayOfTime(now) && RealUtcDate(UtcDateKey(now))
  {
    hide ParseCivil, MonthOf, DateOf, Length, Text, RealUtcDate, MakeDay;
    var day := DayOfTime(now);
    DayNumberOfCivil(day);
    ParseIffText(DayText(day), CivilOf(day));
    RealUtcDateIsReal(DayText(day));
  }
}
