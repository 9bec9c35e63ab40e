/** When a scheduled report fires: the scheduler of `app/ai_reports.py`, whose memory
    of what has run does not survive a restart.

    Local time is a day number, day 0 being a Monday, and an hour. The run keys
    `YYYY-MM-DD` and `YYYY-Wnn` stand for the day and the ISO week. */
module ReportScheduler {
  import opened Text

  datatype Moment = Moment(day: int, hour: int)

  datatype Interval = Daily | Weekly | Other

  datatype RunKey = OnDay(day: int) | InWeek(week: int)

  /** `hour` and `weekday` are whatever integers the configuration holds. */
  datatype Entry = Entry(key: string, enabled: bool, interval: Interval, hour: int, weekday: int)

  const ALL := "__all__"

  function Weekday(now: Moment): int { now.day % 7 }

  /** `_period_run_key` */
  function RunKeyAt(now: Moment, interval: Interval): RunKey {
    if interval.Weekly? then InWeek(now.day / 7) else OnDay(now.day)
  }

  /** `_period_target_passed` */
  predicate TargetPassed(now: Moment, e: Entry) {
    if e.interval.Weekly? then Weekday(now) > e.weekday || (Weekday(now) == e.weekday && now.hour >= e.hour)
    else now.hour >= e.hour
  }

  /** An entry that wants to fire at this tick. */
  predicate IsDue(last: map<string, RunKey>, now: Moment, e: Entry) {
    && e.enabled && now.hour >= e.hour && !(e.key in last && last[e.key] == RunKeyAt(now, e.interval))
    && (e.interval.Daily? || (e.interval.Weekly? && Weekday(now) == e.weekday))
  }

  function DueReader(last: map<string, RunKey>, now: Moment): Entry -> Option<Entry> {
    (e: Entry) => if IsDue(last, now, e) then Some(e) else None
  }

  function DueEntries(last: map<string, RunKey>, now: Moment, schedules: seq<Entry>): seq<Entry> {
    Collect(DueReader(last, now), schedules)
  }

  predicate AllHostsDue(due: seq<Entry>) { exists e :: e in due && e.key == ALL }

  /** What the all-hosts report makes redundant, and what is left to fire. */
  function SuppressedReader(due: seq<Entry>): Entry -> Option<Entry> {
    (e: Entry) => if AllHostsDue(due) && e.key != ALL then Some(e) else None
  }

  function SurvivorReader(due: seq<Entry>): Entry -> Option<Entry> {
    (e: Entry) => if AllHostsDue(due) && e.key != ALL then None else Some(e)
  }

  function Suppressed(due: seq<Entry>): seq<Entry> { Collect(SuppressedReader(due), due) }

  function Survivors(due: seq<Entry>): seq<Entry> { Collect(SurvivorReader(due), due) }

  function Mark(last: map<string, RunKey>, now: Moment, entries: seq<Entry>): map<string, RunKey> {
    if entries == [] then last
    else
      var e := entries[|entries| - 1];
      Mark(last, now, entries[..|entries| - 1])[e.key := RunKeyAt(now, e.interval)]
  }

  function AfterTick(last: map<string, RunKey>, now: Moment, schedules: seq<Entry>): map<string, RunKey> {
    var due := DueEntries(last, now, schedules);
    Mark(Mark(last, now, Suppressed(due)), now, Survivors(due))
  }

  /** `setdefault` for every enabled entry whose target has passed. */
  function Seeded(last: map<string, RunKey>, now: Moment, schedules: seq<Entry>): map<string, RunKey> {
    if schedules == [] then last
    else
      var e := schedules[|schedules| - 1];
      var m := Seeded(last, now, schedules[..|schedules| - 1]);
      if e.enabled && TargetPassed(now, e) && e.key !in m then m[e.key := RunKeyAt(now, e.interval)] else m
  }

  /** The module's global `_last_run_keys` and what changes it. */
  class Scheduler {
    var lastRunKeys: map<string, RunKey>

    constructor ()
      ensures lastRunKeys == map[]
    {
      lastRunKeys := map[];
    }

    /** `_seed_elapsed_schedules` */
    method Seed(schedules: seq<Entry>, now: Moment)
      modifies this
      ensures lastRunKeys == Seeded(old(lastRunKeys), now, schedules)
    {
      for i := 0 to |schedules|
        invariant lastRunKeys == Seeded(old(lastRunKeys), now, schedules[..i])
      {
        assert schedules[..i + 1][..i] == schedules[..i];
        var e := schedules[i];
        if e.enabled && TargetPassed(now, e) && e.key !in lastRunKeys {
          lastRunKeys := lastRunKeys[e.key := RunKeyAt(now, e.interval)];
        }
      }
      assert schedules[..|schedules|] == schedules;
    }

    /** One round of `_scheduler_loop`. The due entries are collected before any of them is marked. */
    method Tick(schedules: seq<Entry>, now: Moment) returns (fired: seq<Entry>)
      modifies this
      ensures lastRunKeys == AfterTick(old(lastRunKeys), now, schedules)
      ensures fired == Survivors(DueEntries(old(lastRunKeys), now, schedules))
    {
      var due := Due(schedules, now);
      var skipped := Collect(SuppressedReader(due), due);
      MarkAll(skipped, now);
      fired := Fire(due, now);
    }

    /** The entries that are due; nothing is marked yet. */
    method Due(schedules: seq<Entry>, now: Moment) returns (due: seq<Entry>)
      ensures due == DueEntries(lastRunKeys, now, schedules)
    {
      due := [];
      for i := 0 to |schedules|
        invariant due == DueEntries(lastRunKeys, now, schedules[..i])
      {
        CollectNext(DueReader(lastRunKeys, now), schedules, i);
        if IsDue(lastRunKeys, now, schedules[i]) {
          due := due + [schedules[i]];
        }
      }
      assert schedules[..|schedules|] == schedules;
    }

    /** Those not suppressed are marked and started one by one. */
    method Fire(due: seq<Entry>, now: Moment) returns (fired: seq<Entry>)
      modifies this
      ensures fired == Survivors(due) && lastRunKeys == Mark(old(lastRunKeys), now, fired)
    {
      fired := [];
      for i := 0 to |due|
        invariant fired == Collect(SurvivorReader(due), due[..i]) && lastRunKeys == Mark(old(lastRunKeys), now, fired)
      {
        CollectNext(SurvivorReader(due), due, i);
        if !(AllHostsDue(due) && due[i].key != ALL) {
          assert (fired + [due[i]])[..|fired|] == fired;
          fired := fired + [due[i]];
          lastRunKeys := lastRunKeys[due[i].key := RunKeyAt(now, due[i].interval)];
        }
      }
      assert due[..|due|] == due;
    }

    method MarkAll(entries: seq<Entry>, now: Moment)
      modifies this
      ensures lastRunKeys == Mark(old(lastRunKeys), now, entries)
    {
      for i := 0 to |entries|
        invariant lastRunKeys == Mark(old(lastRunKeys), now, entries[..i])
      {
        assert entries[..i + 1][..i] == entries[..i];
        lastRunKeys := lastRunKeys[entries[i].key := RunKeyAt(now, entries[i].interval)];
      }
      assert entries[..|entries|] == entries;
    }
  }

  // ----------------------------------------------------------------- one tick

  /** No report of a single host fires in a tick in which the report on all hosts does. */
  lemma NoDoubleReports(due: seq<Entry>, a: Entry, b: Entry)
    requires a in Survivors(due) && b in Survivors(due) && a.key == ALL
    ensures b.key == ALL
  {
    CollectMember(SurvivorReader(due), due, a);
    CollectMember(SurvivorReader(due), due, b);
  }

  /** Every due entry is either fired or suppressed, never both. */
  lemma DueIsHandled(due: seq<Entry>, e: Entry)
    ensures e in due <==> (e in Suppressed(due) || e in Survivors(due))
    ensures !(e in Suppressed(due) && e in Survivors(due))
  {
    CollectMember(SuppressedReader(due), due, e);
    CollectMember(SurvivorReader(due), due, e);
    if e in due {
      var i :| 0 <= i < |due| && due[i] == e;
      assert SuppressedReader(due)(due[i]) == Some(e) || SurvivorReader(due)(due[i]) == Some(e);
    }
  }

  ghost predicate DistinctKeys(schedules: seq<Entry>) {
    forall i, j :: 0 <= i < j < |schedules| ==> schedules[i].key != schedules[j].key
  }

  /** The entries of these schedules are told apart by their keys. */
  ghost predicate KeyedBy(entries: seq<Entry>, schedules: seq<Entry>) {
    forall e :: e in entries ==> e in schedules
  }

  lemma SameKeySameEntry(schedules: seq<Entry>, a: Entry, b: Entry)
    requires DistinctKeys(schedules) && a in schedules && b in schedules && a.key == b.key
    ensures a == b
  {
  }

  lemma {:induction false} MarkAt(last: map<string, RunKey>, now: Moment, entries: seq<Entry>,
                                  schedules: seq<Entry>, e: Entry)
    requires DistinctKeys(schedules) && KeyedBy(entries, schedules) && e in schedules
    ensures var m := Mark(last, now, entries);
            if e in entries then e.key in m && m[e.key] == RunKeyAt(now, e.interval)
            else (e.key in m <==> e.key in last) && (e.key in m ==> m[e.key] == last[e.key])
  {
    if entries != [] {
      var n := |entries| - 1;
      assert entries == entries[..n] + [entries[n]];
      MarkAt(last, now, entries[..n], schedules, e);
      if entries[n].key == e.key {
        SameKeySameEntry(schedules, entries[n], e);
      }
    }
  }

  lemma DueIsScheduled(last: map<string, RunKey>, now: Moment, schedules: seq<Entry>, e: Entry)
    ensures e in DueEntries(last, now, schedules) <==> e in schedules && IsDue(last, now, e)
  {
    CollectMember(DueReader(last, now), schedules, e);
    if e in schedules && IsDue(last, now, e) {
      var i :| 0 <= i < |schedules| && schedules[i] == e;
      assert DueReader(last, now)(schedules[i]) == Some(e);
    }
  }

  lemma DueIsKeyed(last: map<string, RunKey>, now: Moment, schedules: seq<Entry>)
    ensures var due := DueEntries(last, now, schedules);
            KeyedBy(due, schedules) && KeyedBy(Suppressed(due), schedules) && KeyedBy(Survivors(due), schedules)
  {
    var due := DueEntries(last, now, schedules);
    forall e ensures (e in due ==> e in schedules) && (e in Suppressed(due) || e in Survivors(due) ==> e in due) {
      DueIsScheduled(last, now, schedules, e);
      DueIsHandled(due, e);
    }
  }

  /** After a tick every entry that was due is marked with the current period; nothing else changes. */
  lemma TickMarks(last: map<string, RunKey>, now: Moment, schedules: seq<Entry>, e: Entry)
    requires DistinctKeys(schedules) && e in schedules
    ensures var m := AfterTick(last, now, schedules);
            if IsDue(last, now, e) then e.key in m && m[e.key] == RunKeyAt(now, e.interval)
            else (e.key in m <==> e.key in last) && (e.key in m ==> m[e.key] == last[e.key])
  {
    var due := DueEntries(last, now, schedules);
    DueIsKeyed(last, now, schedules);
    DueIsScheduled(last, now, schedules, e);
    DueIsHandled(due, e);
    MarkAt(last, now, Suppressed(due), schedules, e);
    MarkAt(Mark(last, now, Suppressed(due)), now, Survivors(due), schedules, e);
  }

  lemma {:induction false} SeedAt(last: map<string, RunKey>, now: Moment, entries: seq<Entry>,
                                  schedules: seq<Entry>, e: Entry)
    requires DistinctKeys(schedules) && KeyedBy(entries, schedules) && e in schedules
    ensures var m := Seeded(last, now, entries);
            && (e.key in last ==> e.key in m && m[e.key] == last[e.key])
            && (e.key !in last ==> (e.key in m <==> e in entries && e.enabled && TargetPassed(now, e)))
            && (e.key !in last && e.key in m ==> m[e.key] == RunKeyAt(now, e.interval))
  {
    if entries != [] {
      var n := |entries| - 1;
      assert entries == entries[..n] + [entries[n]];
      SeedAt(last, now, entries[..n], schedules, e);
      if entries[n].key == e.key {
        SameKeySameEntry(schedules, entries[n], e);
      }
    }
  }

  /** After a restart exactly the schedules whose target has passed count as done:
      a schedule that is still ahead stays unmarked. */
  lemma {:induction false} RestartSeedsOnlyTheElapsed(now: Moment, schedules: seq<Entry>, e: Entry)
    requires DistinctKeys(schedules) && e in schedules
    ensures e.key in Seeded(map[], now, schedules) <==> e.enabled && TargetPassed(now, e)
    ensures e.interval.Daily? && now.hour < e.hour ==> e.key !in Seeded(map[], now, schedules)
  {
    SeedAt(map[], now, schedules, schedules, e);
  }

  // ---------------------------------------------------------------- whole runs

  /** A crash ends a tick after the suppressed entries and the first `n` of those to fire. */
  datatype Event =
    | Start(at: Moment)
    | Rearm(at: Moment)
    | Round(at: Moment)
    | Crash(at: Moment, n: nat)

  datatype Handled = Handled(entry: Entry, at: Moment, fired: bool)

  /** `last` is lost when the process goes down; `log` is what has happened in all lives of the process. */
  datatype State = State(up: bool, last: map<string, RunKey>, log: seq<Handled>)

  function Entered(entries: seq<Entry>, at: Moment, fired: bool): seq<Handled> {
    seq(|entries|, i requires 0 <= i < |entries| => Handled(entries[i], at, fired))
  }

  function First(entries: seq<Entry>, n: nat): seq<Entry> { if n <= |entries| then entries[..n] else entries }

  function Step(s: State, schedules: seq<Entry>, e: Event): State {
    match e
    case Start(at) => State(true, Seeded(map[], at, schedules), s.log)
    case Rearm(at) => if s.up then s.(last := Seeded(s.last, at, schedules)) else s
    case Round(at) =>
      if s.up then
        var due := DueEntries(s.last, at, schedules);
        State(true, AfterTick(s.last, at, schedules),
              s.log + Entered(Suppressed(due), at, false) + Entered(Survivors(due), at, true))
      else s
    case Crash(at, n) =>
      if s.up then
        var due := DueEntries(s.last, at, schedules);
        State(false, map[], s.log + Entered(Suppressed(due), at, false) + Entered(First(Survivors(due), n), at, true))
      else s
  }

  function After(schedules: seq<Entry>, run: seq<Event>): State {
    if run == [] then State(false, map[], []) else Step(After(schedules, run[..|run| - 1]), schedules, run[|run| - 1])
  }

  predicate NotAfter(a: Moment, b: Moment) { a.day < b.day || (a.day == b.day && a.hour <= b.hour) }

  /** The clock never goes back. */
  ghost predicate Ordered(run: seq<Event>) { forall i, j :: 0 <= i < j < |run| ==> NotAfter(run[i].at, run[j].at) }

  /** What has been handled in the current period is marked as long as the process lives. */
  ghost predicate Remembered(s: State, now: Moment, h: Handled) {
    && NotAfter(h.at, now) && TargetPassed(h.at, h.entry) && h.entry.enabled
    && (s.up && RunKeyAt(h.at, h.entry.interval) == RunKeyAt(now, h.entry.interval) ==>
          h.entry.key in s.last && s.last[h.entry.key] == RunKeyAt(now, h.entry.interval))
  }

  ghost predicate AllRemembered(s: State, schedules: seq<Entry>, now: Moment) {
    forall i :: 0 <= i < |s.log| ==> s.log[i].entry in schedules && Remembered(s, now, s.log[i])
  }

  predicate SamePeriod(a: Handled, b: Handled) {
    a.entry.key == b.entry.key && RunKeyAt(a.at, a.entry.interval) == RunKeyAt(b.at, b.entry.interval)
  }

  /** No schedule has been handled twice in one period. */
  ghost predicate OncePerPeriod(log: seq<Handled>) {
    forall i, j :: 0 <= i < j < |log| ==> !SamePeriod(log[i], log[j])
  }

  /** A target that has passed has passed for the rest of the period. */
  lemma PassedStaysPassed(e: Entry, a: Moment, b: Moment)
    requires NotAfter(a, b) && TargetPassed(a, e) && RunKeyAt(a, e.interval) == RunKeyAt(b, e.interval)
    ensures TargetPassed(b, e)
  {
  }

  /** A period that is over does not come back. */
  lemma PeriodsPass(e: Entry, a: Moment, b: Moment, c: Moment)
    requires NotAfter(a, b) && NotAfter(b, c) && RunKeyAt(a, e.interval) == RunKeyAt(c, e.interval)
    ensures RunKeyAt(b, e.interval) == RunKeyAt(c, e.interval)
  {
  }

  /** One handled entry stays remembered over a step at a later time. */
  lemma StepRemembers(s: State, schedules: seq<Entry>, before: Moment, e: Event, h: Handled)
    requires DistinctKeys(schedules) && h.entry in schedules && Remembered(s, before, h) && NotAfter(before, e.at)
    ensures Remembered(Step(s, schedules, e), e.at, h)
  {
    var same := RunKeyAt(h.at, h.entry.interval) == RunKeyAt(e.at, h.entry.interval);
    if same {
      PassedStaysPassed(h.entry, h.at, e.at);
      PeriodsPass(h.entry, h.at, before, e.at);
    }
    match e
    case Start(at) => SeedAt(map[], at, schedules, schedules, h.entry);
    case Rearm(at) => SeedAt(s.last, at, schedules, schedules, h.entry);
    case Round(at) => TickMarks(s.last, at, schedules, h.entry);
    case Crash(at, n) =>
  }

  /** What a tick newly handles: due entries, each once. */
  ghost predicate NewlyHandled(s: State, schedules: seq<Entry>, at: Moment, new_: seq<Handled>) {
    && (forall i :: 0 <= i < |new_| ==>
          new_[i].at == at && new_[i].entry in schedules && IsDue(s.last, at, new_[i].entry))
    && forall i, j :: 0 <= i < j < |new_| ==> new_[i].entry.key != new_[j].entry.key
  }

  lemma {:induction false} CollectKeepsDistinct(f: Entry -> Option<Entry>, items: seq<Entry>)
    requires DistinctKeys(items) && forall e :: f(e).Some? ==> f(e).value == e
    ensures DistinctKeys(Collect(f, items))
  {
    if items != [] {
      var n := |items| - 1;
      CollectKeepsDistinct(f, items[..n]);
      forall e | e in Collect(f, items[..n]) ensures e.key != items[n].key {
        CollectMember(f, items[..n], e);
        var i :| 0 <= i < n && f(items[..n][i]) == Some(e);
        assert items[i] == e;
      }
    }
  }

  lemma TickHandlesEachOnce(last: map<string, RunKey>, at: Moment, schedules: seq<Entry>)
    requires DistinctKeys(schedules)
    ensures var due := DueEntries(last, at, schedules);
            && DistinctKeys(due) && DistinctKeys(Suppressed(due)) && DistinctKeys(Survivors(due))
            && forall a, b :: a in Suppressed(due) && b in Survivors(due) ==> a.key != b.key
  {
    var due := DueEntries(last, at, schedules);
    CollectKeepsDistinct(DueReader(last, at), schedules);
    CollectKeepsDistinct(SuppressedReader(due), due);
    CollectKeepsDistinct(SurvivorReader(due), due);
    forall a, b | a in Suppressed(due) && b in Survivors(due) ensures a.key != b.key {
      DueIsHandled(due, a);
      DueIsHandled(due, b);
      if a.key == b.key {
        SameKeySameEntry(due, a, b);
      }
    }
  }

  function NewOf(s: State, schedules: seq<Entry>, e: Event): seq<Handled> {
    if s.up && (e.Round? || e.Crash?) then
      var due := DueEntries(s.last, e.at, schedules);
      Entered(Suppressed(due), e.at, false)
      + Entered(if e.Crash? then First(Survivors(due), e.n) else Survivors(due), e.at, true)
    else []
  }

  lemma LogGrows(s: State, schedules: seq<Entry>, e: Event)
    ensures Step(s, schedules, e).log == s.log + NewOf(s, schedules, e)
  {
    if s.up && (e.Round? || e.Crash?) {
      var due := DueEntries(s.last, e.at, schedules);
      Reassociate(s.log, Entered(Suppressed(due), e.at, false),
                  Entered(if e.Crash? then First(Survivors(due), e.n) else Survivors(due), e.at, true));
    }
  }

  lemma Reassociate<T>(a: seq<T>, b: seq<T>, c: seq<T>)
    ensures a + b + c == a + (b + c)
  {
  }

  ghost predicate AllDue(last: map<string, RunKey>, at: Moment, schedules: seq<Entry>, entries: seq<Entry>) {
    forall e :: e in entries ==> e in schedules && IsDue(last, at, e)
  }

  lemma EnteredIsNew(s: State, schedules: seq<Entry>, at: Moment, a: seq<Entry>, b: seq<Entry>)
    requires AllDue(s.last, at, schedules, a) && AllDue(s.last, at, schedules, b) && DistinctKeys(a) && DistinctKeys(b)
    requires forall x, y :: x in a && y in b ==> x.key != y.key
    ensures NewlyHandled(s, schedules, at, Entered(a, at, false) + Entered(b, at, true))
  {
  }

  lemma NewIsNew(s: State, schedules: seq<Entry>, e: Event)
    requires DistinctKeys(schedules)
    ensures NewlyHandled(s, schedules, e.at, NewOf(s, schedules, e))
  {
    if s.up && (e.Round? || e.Crash?) {
      var due := DueEntries(s.last, e.at, schedules);
      TickHandlesEachOnce(s.last, e.at, schedules);
      PartsAreDue(s.last, e.at, schedules);
      EnteredIsNew(s, schedules, e.at, Suppressed(due),
                   if e.Crash? then First(Survivors(due), e.n) else Survivors(due));
    }
  }

  lemma PartsAreDue(last: map<string, RunKey>, at: Moment, schedules: seq<Entry>)
    ensures var due := DueEntries(last, at, schedules);
            AllDue(last, at, schedules, Suppressed(due)) && AllDue(last, at, schedules, Survivors(due))
  {
    var due := DueEntries(last, at, schedules);
    forall x | x in Suppressed(due) || x in Survivors(due) ensures x in schedules && IsDue(last, at, x) {
      DueIsHandled(due, x);
      DueIsScheduled(last, at, schedules, x);
    }
  }

  lemma NewIsRemembered(s: State, schedules: seq<Entry>, e: Event, h: Handled)
    requires DistinctKeys(schedules) && h in NewOf(s, schedules, e)
    ensures h.entry in schedules && Remembered(Step(s, schedules, e), e.at, h)
  {
    NewIsNew(s, schedules, e);
    if e.Round? {
      TickMarks(s.last, e.at, schedules, h.entry);
    }
  }

  lemma NewIsNoRepeat(s: State, schedules: seq<Entry>, before: Moment, e: Event, old_: Handled, new_: Handled)
    requires DistinctKeys(schedules) && old_.entry in schedules && Remembered(s, before, old_) && NotAfter(before, e.at)
    requires new_ in NewOf(s, schedules, e)
    ensures !SamePeriod(old_, new_)
  {
    NewIsNew(s, schedules, e);
    if SamePeriod(old_, new_) {
      SameKeySameEntry(schedules, old_.entry, new_.entry);
      PeriodsPass(old_.entry, old_.at, before, e.at);
    }
  }

  lemma StepKeepsMemory(s: State, schedules: seq<Entry>, before: Moment, e: Event)
    requires DistinctKeys(schedules) && AllRemembered(s, schedules, before) && NotAfter(before, e.at)
    ensures AllRemembered(Step(s, schedules, e), schedules, e.at)
  {
    LogGrows(s, schedules, e);
    var t, new_ := Step(s, schedules, e), NewOf(s, schedules, e);
    forall i | 0 <= i < |s.log| ensures Remembered(t, e.at, s.log[i]) {
      StepRemembers(s, schedules, before, e, s.log[i]);
    }
    forall i | 0 <= i < |new_| ensures new_[i].entry in schedules && Remembered(t, e.at, new_[i]) {
      NewIsRemembered(s, schedules, e, new_[i]);
    }
    BothRemembered(t, schedules, e.at, s.log, new_);
  }

  lemma BothRemembered(t: State, schedules: seq<Entry>, now: Moment, a: seq<Handled>, b: seq<Handled>)
    requires t.log == a + b
    requires forall i :: 0 <= i < |a| ==> a[i].entry in schedules && Remembered(t, now, a[i])
    requires forall i :: 0 <= i < |b| ==> b[i].entry in schedules && Remembered(t, now, b[i])
    ensures AllRemembered(t, schedules, now)
  {
  }

  lemma StepKeepsOnce(s: State, schedules: seq<Entry>, before: Moment, e: Event)
    requires DistinctKeys(schedules) && AllRemembered(s, schedules, before) && NotAfter(before, e.at)
    requires OncePerPeriod(s.log)
    ensures OncePerPeriod(Step(s, schedules, e).log)
  {
    LogGrows(s, schedules, e);
    NewIsNew(s, schedules, e);
    var new_ := NewOf(s, schedules, e);
    forall i, j | 0 <= i < |s.log| && 0 <= j < |new_| ensures !SamePeriod(s.log[i], new_[j]) {
      NewIsNoRepeat(s, schedules, before, e, s.log[i], new_[j]);
    }
    OnceOfBoth(s.log, new_);
  }

  lemma OnceOfBoth(a: seq<Handled>, b: seq<Handled>)
    requires OncePerPeriod(a) && OncePerPeriod(b)
    requires forall i, j :: 0 <= i < |a| && 0 <= j < |b| ==> !SamePeriod(a[i], b[j])
    ensures OncePerPeriod(a + b)
  {
  }

  /** Over any run of starts, crashes, re-arms and ticks every schedule is handled at
      most once in a day or an ISO week, although nothing is remembered across a restart. */
  lemma {:induction false} OnceAcrossRestarts(schedules: seq<Entry>, run: seq<Event>)
    requires DistinctKeys(schedules) && Ordered(run)
    ensures OncePerPeriod(After(schedules, run).log)
    ensures run != [] ==> AllRemembered(After(schedules, run), schedules, run[|run| - 1].at)
  {
    if run != [] {
      var n := |run| - 1;
      var s := After(schedules, run[..n]);
      OnceAcrossRestarts(schedules, run[..n]);
      var before := if n == 0 then run[n].at else run[n - 1].at;
      StepKeepsMemory(s, schedules, before, run[n]);
      StepKeepsOnce(s, schedules, before, run[n]);
    }
  }

  // ------------------------------------------------- a restart skips no later run

  ghost predicate OnlyRounds(rounds: seq<Moment>, day: int) { forall t :: t in rounds ==> t.day == day }

  function Rounds(last: map<string, RunKey>, schedules: seq<Entry>, rounds: seq<Moment>): map<string, RunKey> {
    if rounds == [] then last
    else AfterTick(Rounds(last, schedules, rounds[..|rounds| - 1]), rounds[|rounds| - 1], schedules)
  }

  /** A daily schedule ahead of a restart is due at the first tick of that day at or
      after its hour, and at none before. */
  lemma {:induction false} UpcomingRunComes(schedules: seq<Entry>, start: Moment, rounds: seq<Moment>,
                                            at: Moment, e: Entry)
    requires DistinctKeys(schedules) && e in schedules && e.enabled && e.interval.Daily? && start.hour < e.hour
    requires OnlyRounds(rounds, start.day) && (forall t :: t in rounds ==> t.hour < e.hour)
    ensures var last := Rounds(Seeded(map[], start, schedules), schedules, rounds);
            IsDue(last, at, e) <==> at.hour >= e.hour
  {
    if rounds == [] {
      RestartSeedsOnlyTheElapsed(start, schedules, e);
    } else {
      var n := |rounds| - 1;
      assert rounds[n] in rounds;
      UpcomingRunComes(schedules, start, rounds[..n], rounds[n], e);
      UpcomingRunComes(schedules, start, rounds[..n], at, e);
      TickMarks(Rounds(Seeded(map[], start, schedules), schedules, rounds[..n]), rounds[n], schedules, e);
    }
  }

  /** Before the hour of the weekday in the same ISO week. */
  predicate Ahead(e: Entry, t: Moment, week: int) {
    t.day / 7 == week && (t.day % 7 < e.weekday || (t.day % 7 == e.weekday && t.hour < e.hour))
  }

  /** A weekly schedule ahead of a restart is due on its weekday from its hour on, and at no
      other time before it has run. */
  lemma {:induction false} UpcomingWeeklyRunComes(schedules: seq<Entry>, start: Moment, rounds: seq<Moment>,
                                                  at: Moment, e: Entry)
    requires DistinctKeys(schedules) && e in schedules && e.enabled && e.interval.Weekly?
    requires Ahead(e, start, start.day / 7) && forall t :: t in rounds ==> Ahead(e, t, start.day / 7)
    ensures var last := Rounds(Seeded(map[], start, schedules), schedules, rounds);
            IsDue(last, at, e) <==> at.day % 7 == e.weekday && at.hour >= e.hour
    ensures e.key !in Rounds(Seeded(map[], start, schedules), schedules, rounds)
  {
    if rounds == [] {
      RestartSeedsOnlyTheElapsed(start, schedules, e);
    } else {
      var n := |rounds| - 1;
      assert rounds[n] in rounds;
      UpcomingWeeklyRunComes(schedules, start, rounds[..n], rounds[n], e);
      TickMarks(Rounds(Seeded(map[], start, schedules), schedules, rounds[..n]), rounds[n], schedules, e);
    }
  }

  /** The time is one the schedule asks for: daily from its hour on, weekly on its weekday from its hour on. */
  predicate OnTime(e: Entry, at: Moment) {
    && e.enabled && at.hour >= e.hour
    && match e.interval case Daily => true case Weekly => at.day % 7 == e.weekday case Other => false
  }

  /** Over any run, every schedule that was handled was enabled, and handled at a time it asks for. */
  lemma {:induction false} HandledOnTime(schedules: seq<Entry>, run: seq<Event>)
    requires DistinctKeys(schedules)
    ensures forall h :: h in After(schedules, run).log ==> h.entry in schedules && OnTime(h.entry, h.at)
  {
    if run != [] {
      var n := |run| - 1;
      var s := After(schedules, run[..n]);
      HandledOnTime(schedules, run[..n]);
      LogGrows(s, schedules, run[n]);
      NewIsNew(s, schedules, run[n]);
    }
  }

  /** It is time for the schedule, and the process has not marked it in this period. */
  predicate Wanted(last: map<string, RunKey>, e: Entry, at: Moment) {
    OnTime(e, at) && !(e.key in last && last[e.key] == RunKeyAt(at, e.interval))
  }

  ghost predicate AllHostsWanted(last: map<string, RunKey>, schedules: seq<Entry>, at: Moment) {
    exists a :: a in schedules && a.key == ALL && Wanted(last, a, at)
  }

  /** A tick of a running process fires exactly the schedules that are wanted, save that the report on all
      hosts, when it is wanted, replaces all others: these are handled without firing. */
  lemma TickHandlesIff(s: State, schedules: seq<Entry>, at: Moment, e: Entry)
    requires DistinctKeys(schedules) && e in schedules && s.up
    ensures Handled(e, at, true) in NewOf(s, schedules, Round(at)) <==>
            Wanted(s.last, e, at) && (e.key == ALL || !AllHostsWanted(s.last, schedules, at))
    ensures Handled(e, at, false) in NewOf(s, schedules, Round(at)) <==>
            Wanted(s.last, e, at) && e.key != ALL && AllHostsWanted(s.last, schedules, at)
  {
    var due := DueEntries(s.last, at, schedules);
    AllHostsDueIff(s.last, schedules, at);
    DueIsScheduled(s.last, at, schedules, e);
    DueSplits(due, e);
    EnteredHas(Suppressed(due), at, false, e);
    EnteredHas(Survivors(due), at, true, e);
    assert NewOf(s, schedules, Round(at)) == Entered(Suppressed(due), at, false) + Entered(Survivors(due), at, true);
  }

  lemma AllHostsDueIff(last: map<string, RunKey>, schedules: seq<Entry>, at: Moment)
    ensures AllHostsDue(DueEntries(last, at, schedules)) <==> AllHostsWanted(last, schedules, at)
  {
    forall a ensures a in DueEntries(last, at, schedules) <==> a in schedules && Wanted(last, a, at) {
      DueIsScheduled(last, at, schedules, a);
    }
  }

  lemma DueSplits(due: seq<Entry>, e: Entry)
    ensures e in Suppressed(due) <==> e in due && e.key != ALL && AllHostsDue(due)
    ensures e in Survivors(due) <==> e in due && (e.key == ALL || !AllHostsDue(due))
  {
    DueIsHandled(due, e);
    CollectMember(SuppressedReader(due), due, e);
    CollectMember(SurvivorReader(due), due, e);
  }

  lemma EnteredHas(entries: seq<Entry>, at: Moment, fired: bool, e: Entry)
    ensures forall f :: Handled(e, at, f) in Entered(entries, at, fired) <==> f == fired && e in entries
  {
    if e in entries {
      var i :| 0 <= i < |entries| && entries[i] == e;
      assert Entered(entries, at, fired)[i] == Handled(e, at, fired);
    }
  }

  /** Saving the configuration loses the due run of a schedule exactly when its hour has struck in
      the same period and this process has not marked the schedule yet: the save counts the run
      as done before the tick that would have fired. */
  lemma RearmSwallowsTheRun(s: State, schedules: seq<Entry>, rearm: Moment, at: Moment, e: Entry)
    requires DistinctKeys(schedules) && e in schedules && s.up
    ensures Wanted(Step(s, schedules, Rearm(rearm)).last, e, at) <==>
            && Wanted(s.last, e, at)
            && !(e.key !in s.last && TargetPassed(rearm, e) && RunKeyAt(rearm, e.interval) == RunKeyAt(at, e.interval))
  {
    SeedAt(s.last, rearm, schedules, schedules, e);
  }

  /** The schedule on all hosts has a key of its own, which no host has. */
  lemma AllHostsKey()
    ensures ALL == "__all__"
  {
  }
}
