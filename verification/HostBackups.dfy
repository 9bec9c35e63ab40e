/** The scheduler of host configuration backups (`app/hostbackup.py`): when a backup is
    due, how failures are retried and announced, what is pruned. */
module HostBackups {
  import opened BackupNames
  import opened Calendar
  import opened Sorting
  import opened Text

  datatype Schedule = Schedule(enabled: bool, interval: Interval, hour: int, weekday: int, keep: int, priv: bool)

  /** Naive local time. */
  datatype Moment = Moment(at: Stamp, micro: nat)

  const THROTTLE := 1800.0

  function IntervalSeconds(interval: Interval): int {
    match interval case Daily => 86400 case Weekly => 604800 case Monthly => 2592000
  }

  /** The preferred hour, for a weekly schedule also the preferred day, has come. */
  predicate Preferred(now: Moment, sched: Schedule) {
    (sched.interval.Weekly? ==> DayNumber(now.at) % 7 >= sched.weekday) && now.at.hour >= sched.hour
  }

  /** Older than one and a half intervals. */
  predicate Overdue(newest: Option<Civil>, now: Moment, interval: Interval) {
    newest.None?
    || 1000000 * (Seconds(now.at) - Seconds(newest.value)) + now.micro > 1500000 * IntervalSeconds(interval)
  }

  /** `backup_due` */
  predicate BackupDue(newest: Option<Civil>, now: Moment, sched: Schedule) {
    && !(newest.Some? && PeriodOf(sched.interval, newest.value) == PeriodOf(sched.interval, now.at))
    && (Preferred(now, sched) || Overdue(newest, now, sched.interval))
  }

  /** How an attempt ends: stored; the archive is not built; or it is built but not
      fetched, which may leave a part of it behind. */
  datatype Outcome = Made | NotBuilt | NotFetched(partLeft: bool)

  /** What the outside world answers to one turn: the clock read before the throttle,
      at the start and at a failure, the local time that names the archive, how the
      attempt ends, and which files refuse to be removed. */
  datatype Answer = Answer(checked: real, started: real, failed: real, stamp: Stamp, outcome: Outcome,
                           stuck: seq<string>)

  /** A scheduled address. `standby` is `None` when no such host is registered. */
  datatype Turn = Turn(address: string, sched: Schedule, standby: Option<bool>, answer: Answer)

  datatype Notice = Failed | Recovered

  /** What belongs to one host: its stored files, the memory of the process, and what was sent. */
  datatype Host = Host(files: seq<string>, lastAttempt: Option<real>, failingSince: Option<real>, notices: seq<Notice>)

  /** The attempt is made at all. */
  predicate Tries(h: Host, now: Moment, t: Turn) {
    && t.sched.enabled && t.standby == Some(false)
    && BackupDue(NewestStamp(h.files), now, t.sched)
    && !(t.answer.checked - h.lastAttempt.GetOr(0.0) < THROTTLE)
  }

  function Added(names: seq<string>, n: string): seq<string> { if n in names then names else names + [n] }

  /** The files after `create_backup`. */
  function Created(files: seq<string>, name: string, outcome: Outcome): seq<string> {
    match outcome
    case Made => Added(files, name)
    case NotBuilt => files
    case NotFetched(partLeft) => if partLeft then Added(files, name) else Without(files, [name])
  }

  /** A broken download may leave a file of the new name. */
  lemma PartsAreFiles(files: seq<string>, name: string, n: string)
    ensures n in Created(files, name, NotFetched(true)) <==> n in files || n == name
    ensures n in Created(files, name, NotFetched(false)) <==> n in files && n != name
  {
    WithoutMembers(files, [name]);
  }

  /** The files after `prune_backups`, when those in `stuck` cannot be removed. */
  function Pruned(files: seq<string>, keep: int, stuck: seq<string>): seq<string> {
    Without(files, Without(SelectPrunable(files, keep), stuck))
  }

  /** `_record_success` */
  function Succeeded(h: Host): Host {
    if h.failingSince.Some? then h.(failingSince := None, notices := h.notices + [Recovered]) else h
  }

  /** `_record_failure` */
  function FailedAt(h: Host, at: real): Host {
    if h.failingSince.Some? then h else h.(failingSince := Some(at), notices := h.notices + [Failed])
  }

  /** The host when its backup has been made and the older ones pruned, or making it has failed. */
  function Tried(h: Host, t: Turn): Host {
    var stored := Created(h.files, NameOf(t.answer.stamp, t.sched.priv), t.answer.outcome);
    h.(lastAttempt := Some(t.answer.started),
       files := if t.answer.outcome.Made? then Pruned(stored, t.sched.keep, t.answer.stuck) else stored)
  }

  /** An attempt: its time is kept, and the outcome recorded. */
  function AfterAttempt(h: Host, t: Turn): Host {
    if t.answer.outcome.Made? then Succeeded(Tried(h, t)) else FailedAt(Tried(h, t), t.answer.failed)
  }

  /** One turn of `_scheduler_tick`. */
  function AfterTurn(h: Host, now: Moment, t: Turn): Host {
    if Tries(h, now, t) then AfterAttempt(h, t) else h
  }

  // ------------------------------------------------------------------ the module

  predicate DistinctAddresses(turns: seq<Turn>) {
    forall i, j :: 0 <= i < j < |turns| ==> turns[i].address != turns[j].address
  }

  /** The dictionaries of the module, the stored files, and the notifications sent. */
  datatype Globals = Globals(lastAttempt: map<string, real>, failing: map<string, real>,
                             files: map<string, seq<string>>, sent: map<string, seq<Notice>>)

  function HostOf(g: Globals, address: string): Host {
    Host(Fetch(g.files, address).GetOr([]), Fetch(g.lastAttempt, address), Fetch(g.failing, address),
         Fetch(g.sent, address).GetOr([]))
  }

  /** The hosts other than `address` are as they were. */
  ghost predicate OnlyChanges(before: Globals, after: Globals, address: string) {
    forall a :: a != address ==> HostOf(after, a) == HostOf(before, a)
  }

  ghost function HostIn(g: Globals): string -> Host { a => HostOf(g, a) }

  ghost function TurnTaker(now: Moment): (Host, Turn) -> Host { (h: Host, t: Turn) => AfterTurn(h, now, t) }

  ghost function AddressOf(): Turn -> string { (t: Turn) => t.address }

  /** The first `n` turns have been taken, each by its own host and nobody else's. */
  ghost predicate DoneUpTo<H, T>(start: string -> H, current: string -> H, take: (H, T) -> H, address: T -> string,
                                 turns: seq<T>, n: nat) {
    && (forall j :: 0 <= j < n && j < |turns| ==>
          current(address(turns[j])) == take(start(address(turns[j])), turns[j]))
    && forall a :: (forall j :: 0 <= j < n && j < |turns| ==> address(turns[j]) != a) ==> current(a) == start(a)
  }

  lemma OneMoreTurn<H, T>(start: string -> H, before: string -> H, after: string -> H, take: (H, T) -> H,
                          address: T -> string, turns: seq<T>, n: nat)
    requires n < |turns| && DoneUpTo(start, before, take, address, turns, n)
    requires forall i, j :: 0 <= i < j < |turns| ==> address(turns[i]) != address(turns[j])
    requires after(address(turns[n])) == take(before(address(turns[n])), turns[n])
    requires forall a :: a != address(turns[n]) ==> after(a) == before(a)
    ensures DoneUpTo(start, after, take, address, turns, n + 1)
  {
  }

  lemma TurnsDone(start: Globals, current: Globals, now: Moment, turns: seq<Turn>)
    requires DoneUpTo(HostIn(start), HostIn(current), TurnTaker(now), AddressOf(), turns, |turns|)
    ensures forall i :: 0 <= i < |turns| ==>
              HostOf(current, turns[i].address) == AfterTurn(HostOf(start, turns[i].address), now, turns[i])
    ensures forall a :: (forall i :: 0 <= i < |turns| ==> turns[i].address != a) ==>
              HostOf(current, a) == HostOf(start, a)
  {
    forall a | forall i :: 0 <= i < |turns| ==> turns[i].address != a ensures HostOf(current, a) == HostOf(start, a) {
      assert HostIn(current)(a) == HostIn(start)(a) by {
        forall j | 0 <= j < |turns| ensures AddressOf()(turns[j]) != a {
          assert turns[j].address != a;
        }
      }
    }
  }

  class Scheduler {
    var lastAttempt: map<string, real>
    var failing: map<string, real>
    var standbyLogged: set<string>
    var files: map<string, seq<string>>
    var sent: map<string, seq<Notice>>

    function View(): Globals
      reads this
    {
      Globals(lastAttempt, failing, files, sent)
    }

    /** A new process: what was in memory is gone, what is stored stays. */
    constructor (stored: map<string, seq<string>>)
      ensures forall a :: HostOf(View(), a) == Host(Fetch(stored, a).GetOr([]), None, None, [])
    {
      lastAttempt, failing, standbyLogged, files, sent := map[], map[], {}, stored, map[];
    }

    /** `_scheduler_tick`: every scheduled host takes its own turn, all others are left alone. */
    method Tick(now: Moment, turns: seq<Turn>)
      requires DistinctAddresses(turns)
      modifies this
      ensures forall i :: 0 <= i < |turns| ==>
                HostOf(View(), turns[i].address) == AfterTurn(HostOf(old(View()), turns[i].address), now, turns[i])
      ensures forall a :: (forall i :: 0 <= i < |turns| ==> turns[i].address != a) ==>
                HostOf(View(), a) == HostOf(old(View()), a)
    {
      ghost var start := View();
      for i := 0 to |turns|
        invariant DoneUpTo(HostIn(start), HostIn(View()), TurnTaker(now), AddressOf(), turns, i)
      {
        ghost var before := View();
        TakeTurn(now, turns[i]);
        OneMoreTurn(HostIn(start), HostIn(before), HostIn(View()), TurnTaker(now), AddressOf(), turns, i);
      }
      TurnsDone(start, View(), now, turns);
    }

    method TakeTurn(now: Moment, t: Turn)
      modifies this
      ensures HostOf(View(), t.address) == AfterTurn(HostOf(old(View()), t.address), now, t)
      ensures OnlyChanges(old(View()), View(), t.address)
    {
      if !t.sched.enabled || t.standby.None? {
        return;
      }
      if t.standby.value {
        standbyLogged := standbyLogged + {t.address};
        return;
      }
      standbyLogged := standbyLogged - {t.address};
      if !BackupDue(NewestStamp(Fetch(files, t.address).GetOr([])), now, t.sched) {
        return;
      }
      if t.answer.checked - Fetch(lastAttempt, t.address).GetOr(0.0) < THROTTLE {
        return;
      }
      Attempt(t);
    }

    method Attempt(t: Turn)
      modifies this
      ensures HostOf(View(), t.address) == AfterAttempt(HostOf(old(View()), t.address), t)
      ensures OnlyChanges(old(View()), View(), t.address)
    {
      CreateAndPrune(t);
      if t.answer.outcome.Made? {
        RecordSuccess(t.address);
      } else {
        RecordFailure(t.address, t.answer.failed);
      }
    }

    /** The time of the attempt is kept first, whatever becomes of it. */
    method CreateAndPrune(t: Turn)
      modifies this
      ensures HostOf(View(), t.address) == Tried(HostOf(old(View()), t.address), t)
      ensures OnlyChanges(old(View()), View(), t.address)
    {
      lastAttempt := lastAttempt[t.address := t.answer.started];
      var name := NameOf(t.answer.stamp, t.sched.priv);
      var stored := Created(Fetch(files, t.address).GetOr([]), name, t.answer.outcome);
      if t.answer.outcome.Made? {
        stored := Pruned(stored, t.sched.keep, t.answer.stuck);
      }
      files := files[t.address := stored];
    }

    method RecordSuccess(address: string)
      modifies this
      ensures HostOf(View(), address) == Succeeded(HostOf(old(View()), address))
      ensures OnlyChanges(old(View()), View(), address)
    {
      if address in failing {
        failing := failing - {address};
        sent := sent[address := Fetch(sent, address).GetOr([]) + [Recovered]];
      }
    }

    method RecordFailure(address: string, at: real)
      modifies this
      ensures HostOf(View(), address) == FailedAt(HostOf(old(View()), address), at)
      ensures OnlyChanges(old(View()), View(), address)
    {
      if address in failing {
        return;
      }
      failing := failing[address := at];
      sent := sent[address := Fetch(sent, address).GetOr([]) + [Failed]];
    }
  }

  // ------------------------------------------------------------- one successful turn

  /** The clock has not gone back since the stored backups were made. */
  ghost predicate Sound(files: seq<string>, now: Civil) {
    Distinct(files) && MadeBy(files, now)
  }

  /** A backup that is due is newer than every stored one: the second of its name is not taken. */
  lemma DueIsNewer(files: seq<string>, now: Moment, sched: Schedule, stamp: Stamp, n: string)
    requires Sound(files, now.at) && BackupDue(NewestStamp(files), now, sched) && Seconds(now.at) <= Seconds(stamp)
    requires n in files && IsValidName(n)
    ensures IsDated(n) && Seconds(StampIn(n)) < Seconds(stamp)
    ensures PeriodOf(sched.interval, StampIn(n)) < PeriodOf(sched.interval, now.at) <= PeriodOf(sched.interval, stamp)
  {
    NewestIsLatest(files, now.at, n);
    var newest := NewestStamp(files).value;
    TimesFollow(sched.interval, StampIn(n), newest);
    TimesFollow(sched.interval, newest, now.at);
    TimesFollow(sched.interval, now.at, stamp);
  }

  lemma TimesFollow(interval: Interval, a: Civil, b: Civil)
    requires Exists(a) && Exists(b) && Seconds(a) <= Seconds(b)
    ensures PeriodOf(interval, a) <= PeriodOf(interval, b)
    ensures Seconds(a) == Seconds(b) ==> a == b
  {
    DigitsOrderTime(a, b);
    DigitsOrderTime(b, a);
    PeriodsFollow(interval, a, b);
  }

  lemma NewIsUnknown(files: seq<string>, stamp: Stamp, priv: bool)
    requires MadeBefore(files, stamp)
    ensures NameOf(stamp, priv) !in files && IsValidName(NameOf(stamp, priv))
  {
    NameKeepsStamp(stamp, priv);
    assert !IsOlder(NameOf(stamp, priv), stamp);
  }

  /** A new backup goes to the end of the order. */
  lemma NewGoesLast(files: seq<string>, stamp: Stamp, priv: bool)
    requires Distinct(files) && MadeBefore(files, stamp)
    ensures NameOf(stamp, priv) !in files
    ensures Ordered(Added(files, NameOf(stamp, priv))) == Ordered(files) + [NameOf(stamp, priv)]
  {
    var name := NameOf(stamp, priv);
    NewIsUnknown(files, stamp, priv);
    OrderedIsSorted(files);
    forall n | n in files && IsValidName(n) ensures StringLe(n, name) {
      assert IsOlder(n, stamp);
      NameKeepsStamp(stamp, priv);
      DatedOrder(n, name);
    }
    LastInOrder(files, name);
  }

  lemma {:induction false} LastInOrder(files: seq<string>, name: string)
    requires Distinct(files) && name !in files && IsValidName(name)
    requires forall n :: n in files && IsValidName(n) ==> StringLe(n, name)
    ensures Ordered(files + [name]) == Ordered(files) + [name]
  {
    OrderedIsSorted(files);
    OrderedIsDistinct(files);
    OrderedIsSorted(files + [name]);
    OrderedIsDistinct(files + [name]);
    var old_ := Ordered(files);
    forall i | 0 <= i < |old_| ensures StringLe(old_[i], name) {
      assert old_[i] in old_;
    }
    SameSortedSet(Ordered(files + [name]), old_ + [name]);
  }

  /** Every stored backup is older than this. */
  ghost predicate MadeBefore(files: seq<string>, stamp: Civil) {
    forall n :: n in files && IsValidName(n) ==> IsOlder(n, stamp)
  }

  predicate IsOlder(name: string, stamp: Civil) {
    IsDated(name) && Seconds(StampIn(name)) < Seconds(stamp)
  }

  lemma DueIsMadeBefore(files: seq<string>, now: Moment, sched: Schedule, stamp: Stamp)
    requires Sound(files, now.at) && BackupDue(NewestStamp(files), now, sched) && Seconds(now.at) <= Seconds(stamp)
    ensures MadeBefore(files, stamp)
  {
    forall n | n in files && IsValidName(n) ensures IsOlder(n, stamp) {
      DueIsNewer(files, now, sched, stamp, n);
    }
  }

  lemma TurnFiles(h: Host, now: Moment, t: Turn)
    requires Tries(h, now, t) && t.answer.outcome.Made?
    ensures AfterTurn(h, now, t).files ==
            Pruned(Added(h.files, NameOf(t.answer.stamp, t.sched.priv)), t.sched.keep, t.answer.stuck)
  {
  }

  /** What a successful turn stores and prunes, when every file can be removed. */
  lemma SuccessfulTurn(h: Host, now: Moment, t: Turn)
    requires Sound(h.files, now.at) && Tries(h, now, t) && Seconds(now.at) <= Seconds(t.answer.stamp)
    requires t.answer.outcome.Made? && t.answer.stuck == []
    ensures Ordered(AfterTurn(h, now, t).files) ==
            Kept(Ordered(h.files) + [NameOf(t.answer.stamp, t.sched.priv)], t.sched.keep)
  {
    var name := NameOf(t.answer.stamp, t.sched.priv);
    DueIsMadeBefore(h.files, now, t.sched, t.answer.stamp);
    NewGoesLast(h.files, t.answer.stamp, t.sched.priv);
    var files := Added(h.files, name);
    TurnFiles(h, now, t);
    NothingStuck(SelectPrunable(files, t.sched.keep));
    PruneKeepsNewest(files, t.sched.keep);
  }

  /** A successful turn that keeps at least one backup leaves exactly the newest ones: the
      one just made and the `keep - 1` before it. */
  lemma SuccessLeavesNewest(h: Host, now: Moment, t: Turn)
    requires Sound(h.files, now.at) && Tries(h, now, t) && Seconds(now.at) <= Seconds(t.answer.stamp)
    requires t.answer.outcome.Made? && t.answer.stuck == [] && t.sched.keep >= 1
    ensures Ordered(AfterTurn(h, now, t).files)
            == Kept(Ordered(h.files), t.sched.keep - 1) + [NameOf(t.answer.stamp, t.sched.priv)]
  {
    SuccessfulTurn(h, now, t);
    KeptWithNext(Ordered(h.files), NameOf(t.answer.stamp, t.sched.priv), t.sched.keep);
  }

  lemma KeptWithNext(names: seq<string>, name: string, keep: int)
    requires keep >= 1
    ensures Kept(names + [name], keep) == Kept(names, keep - 1) + [name]
  {
  }

  lemma {:induction false} NothingStuck(names: seq<string>)
    ensures Without(names, []) == names
  {
    if names != [] {
      NothingStuck(names[..|names| - 1]);
    }
  }

  /** Keeping none deletes the new backup too, so that the schedule is due again in the very
      period it has just run in; keeping at least one it is not. */
  lemma KeepingNoneStaysDue(h: Host, now: Moment, t: Turn, later: Moment)
    requires Sound(h.files, now.at) && Tries(h, now, t) && Seconds(now.at) <= Seconds(t.answer.stamp)
    requires t.answer.outcome.Made? && t.answer.stuck == []
    requires PeriodOf(t.sched.interval, later.at) == PeriodOf(t.sched.interval, t.answer.stamp)
    ensures BackupDue(NewestStamp(AfterTurn(h, now, t).files), later, t.sched) <==> t.sched.keep <= 0
  {
    SuccessfulTurn(h, now, t);
    var ordered := Ordered(AfterTurn(h, now, t).files);
    if t.sched.keep <= 0 {
      assert ordered == [];
    } else {
      KeptWithNext(Ordered(h.files), NameOf(t.answer.stamp, t.sched.priv), t.sched.keep);
      NameKeepsStamp(t.answer.stamp, t.sched.priv);
      LastReadAt(StampOf, ordered, t.answer.stamp);
    }
  }

  /** A turn that is not held back by the throttle. */
  predicate MayTry(h: Host, t: Turn) {
    t.sched.enabled && t.standby == Some(false) && t.answer.checked - h.lastAttempt.GetOr(0.0) >= 1800.0
  }

  /** A backup of this period, or of a later one, is stored. */
  ghost predicate Served(files: seq<string>, interval: Interval, now: Civil) {
    exists n :: n in files && IsDated(n) && PeriodOf(interval, StampIn(n)) >= PeriodOf(interval, now)
  }

  /** At or after the hour of the schedule, and in a weekly one on or after its weekday, counted from Monday. */
  predicate IsPreferredTime(now: Moment, sched: Schedule) {
    && sched.hour <= now.at.hour
    && match sched.interval
       case Daily => true
       case Weekly => sched.weekday <= DayNumber(now.at) % 7
       case Monthly => true
  }

  /** A backup is overdue after a day and a half, ten days and a half, or forty-five days, to the microsecond. */
  lemma OverdueIff(newest: Stamp, now: Moment, interval: Interval)
    ensures var late := Seconds(now.at) - Seconds(newest);
            var limit := match interval case Daily => 129600 case Weekly => 907200 case Monthly => 3888000;
            Overdue(Some(newest), now, interval) <==> 1000000 * late + now.micro > 1000000 * limit
    ensures Overdue(None, now, interval)
  {
  }

  /** A turn that may try, works and keeps at least one backup serves the period whenever
      the preferred time has come, and also before it when no stored backup is younger than
      one and a half intervals. */
  lemma PreferredTurnServes(h: Host, now: Moment, t: Turn)
    requires Sound(h.files, now.at) && MayTry(h, t) && Seconds(now.at) <= Seconds(t.answer.stamp)
    requires t.answer.outcome.Made? && t.sched.keep >= 1
    requires IsPreferredTime(now, t.sched) || Overdue(NewestStamp(h.files), now, t.sched.interval)
    ensures Served(AfterTurn(h, now, t).files, t.sched.interval, now.at)
  {
    if Tries(h, now, t) {
      DueIsMadeBefore(h.files, now, t.sched, t.answer.stamp);
      NewIsNotPruned(h.files, t.answer.stamp, t.sched.priv, t.sched.keep, t.answer.stuck);
      TurnFiles(h, now, t);
      TimesFollow(t.sched.interval, now.at, t.answer.stamp);
      NameKeepsStamp(t.answer.stamp, t.sched.priv);
    } else {
      LastIsMade(h.files, now.at);
    }
  }

  /** Before its preferred time a schedule is tried only when every stored backup is older
      than one and a half intervals. */
  lemma NoEarlyAttempt(h: Host, now: Moment, t: Turn, n: string)
    requires Sound(h.files, now.at) && Tries(h, now, t) && !IsPreferredTime(now, t.sched)
    requires n in h.files && IsValidName(n)
    ensures IsDated(n) && Overdue(Some(StampIn(n)), now, t.sched.interval)
  {
    NewestIsLatest(h.files, now.at, n);
  }

  // ---------------------------------------------------------------- runs of one host

  /** A turn of the scheduler; a backup made by hand; a new process. */
  datatype Event =
    | Round(now: Moment, turn: Turn)
    | ByHand(at: Stamp, priv: bool)
    | Restart(at: Stamp)

  datatype Backup = Backup(at: Stamp, interval: Interval)

  /** `tried` holds the attempts of the present process, `made` the scheduled backups of all processes. */
  datatype History = History(host: Host, tried: seq<real>, made: seq<Backup>)

  function Step(s: History, e: Event): History {
    match e
    case Round(now, t) =>
      if Tries(s.host, now, t) then
        History(AfterTurn(s.host, now, t), s.tried + [t.answer.started],
                if t.answer.outcome.Made? then s.made + [Backup(t.answer.stamp, t.sched.interval)] else s.made)
      else s
    case ByHand(at, priv) => s.(host := s.host.(files := Added(s.host.files, NameOf(at, priv))))
    case Restart(at) => History(Host(s.host.files, None, None, []), [], s.made)
  }

  function After(files: seq<string>, run: seq<Event>): History {
    if run == [] then History(Host(files, None, None, []), [], [])
    else Step(After(files, run[..|run| - 1]), run[|run| - 1])
  }

  function Begins(e: Event): Civil { if e.Round? then e.now.at else e.at }

  function Ends(e: Event): Civil { if e.Round? then e.turn.answer.stamp else e.at }

  /** The clocks never go back, and every schedule keeps at least one backup. */
  ghost predicate Regular(start: Civil, run: seq<Event>) {
    && (forall i :: 0 <= i < |run| ==> IsRegular(start, run[i]))
    && (forall i, j :: 0 <= i < j < |run| ==> Seconds(Ends(run[i])) <= Seconds(Begins(run[j])))
  }

  predicate IsRegular(start: Civil, e: Event) {
    && Seconds(start) <= Seconds(Begins(e)) <= Seconds(Ends(e))
    && (e.Round? ==> e.turn.sched.keep >= 1 && e.turn.answer.checked <= e.turn.answer.started)
  }

  /** A backup at least as new as this one is stored. */
  ghost predicate Covered(files: seq<string>, at: Civil) {
    exists n :: n in files && IsDated(n) && Seconds(at) <= Seconds(StampIn(n))
  }

  ghost predicate AllCovered(files: seq<string>, made: seq<Backup>) {
    forall i :: 0 <= i < |made| ==> Covered(files, made[i].at)
  }

  /** No backup falls in the period, counted by its own interval, of an earlier one. */
  ghost predicate OncePerPeriod(made: seq<Backup>) {
    forall i, j :: 0 <= i < j < |made| ==>
      PeriodOf(made[j].interval, made[i].at) != PeriodOf(made[j].interval, made[j].at)
  }

  lemma SoundLater(files: seq<string>, a: Civil, b: Civil)
    requires Sound(files, a) && Seconds(a) <= Seconds(b)
    ensures Sound(files, b)
  {
    forall n | n in files && IsValidName(n) ensures IsMade(n, b) {
      assert IsMade(n, a);
    }
  }

  lemma SoundWithNew(files: seq<string>, a: Civil, stamp: Stamp, priv: bool)
    requires Sound(files, a) && Seconds(a) <= Seconds(stamp)
    ensures Sound(Added(files, NameOf(stamp, priv)), stamp)
  {
    SoundLater(files, a, stamp);
    NameKeepsStamp(stamp, priv);
  }

  lemma SoundWithout(files: seq<string>, gone: seq<string>, now: Civil)
    requires Sound(files, now)
    ensures Sound(Without(files, gone), now)
  {
    WithoutMembers(files, gone);
    WithoutDistinct(files, gone);
  }

  lemma CoveredByMore(files: seq<string>, more: seq<string>, made: seq<Backup>)
    requires AllCovered(files, made) && forall n :: n in files ==> n in more
    ensures AllCovered(more, made)
  {
    forall i | 0 <= i < |made| ensures Covered(more, made[i].at) {
      assert Covered(files, made[i].at);
    }
  }

  /** The backup just made outlives its own pruning. */
  lemma NewIsNotPruned(files: seq<string>, stamp: Stamp, priv: bool, keep: int, stuck: seq<string>)
    requires Distinct(files) && MadeBefore(files, stamp) && keep >= 1
    ensures NameOf(stamp, priv) in Pruned(Added(files, NameOf(stamp, priv)), keep, stuck)
  {
    var name := NameOf(stamp, priv);
    NewGoesLast(files, stamp, priv);
    var more := Added(files, name);
    OrderedIsDistinct(more);
    var gone := SelectPrunable(more, keep);
    assert name !in gone by {
      assert gone <= Ordered(files);
      OrderedIsSorted(files);
      assert forall i :: 0 <= i < |gone| ==> gone[i] == Ordered(files)[i];
    }
    WithoutMembers(gone, stuck);
    WithoutMembers(more, Without(gone, stuck));
  }

  lemma AllCoveredByNew(files: seq<string>, stamp: Stamp, priv: bool, made: seq<Backup>)
    requires NameOf(stamp, priv) in files && forall i :: 0 <= i < |made| ==> Seconds(made[i].at) <= Seconds(stamp)
    ensures AllCovered(files, made)
  {
    NameKeepsStamp(stamp, priv);
    forall i | 0 <= i < |made| ensures Covered(files, made[i].at) {
      assert IsDated(NameOf(stamp, priv));
    }
  }

  /** What is stored belongs to the past, and so does every backup it covers. */
  lemma CoveredIsPast(files: seq<string>, made: seq<Backup>, now: Civil)
    requires Sound(files, now) && AllCovered(files, made)
    ensures forall i :: 0 <= i < |made| ==> Seconds(made[i].at) <= Seconds(now)
  {
    forall i | 0 <= i < |made| ensures Seconds(made[i].at) <= Seconds(now) {
      assert Covered(files, made[i].at);
      var n :| n in files && IsDated(n) && Seconds(made[i].at) <= Seconds(StampIn(n));
      NewestIsLatest(files, now, n);
    }
  }

  /** A backup that is stored and survives its pruning covers everything made before it. */
  lemma MadeKeepsFiles(files: seq<string>, made: seq<Backup>, before: Civil, stamp: Stamp, sched: Schedule,
                       stuck: seq<string>)
    requires Sound(files, before) && AllCovered(files, made) && Seconds(before) <= Seconds(stamp)
    requires MadeBefore(files, stamp) && sched.keep >= 1
    ensures var left := Pruned(Added(files, NameOf(stamp, sched.priv)), sched.keep, stuck);
            Sound(left, stamp) && AllCovered(left, made + [Backup(stamp, sched.interval)])
  {
    var more := Added(files, NameOf(stamp, sched.priv));
    SoundLater(files, before, stamp);
    CoveredIsPast(files, made, stamp);
    SoundWithNew(files, before, stamp, sched.priv);
    SoundWithout(more, Without(SelectPrunable(more, sched.keep), stuck), stamp);
    NewIsNotPruned(files, stamp, sched.priv, sched.keep, stuck);
    AllCoveredByNew(Pruned(more, sched.keep, stuck), stamp, sched.priv, made + [Backup(stamp, sched.interval)]);
  }

  /** A failed attempt takes nothing away: the second of its name was free. */
  lemma FailureKeepsFiles(files: seq<string>, made: seq<Backup>, before: Civil, stamp: Stamp, priv: bool,
                          outcome: Outcome)
    requires Sound(files, before) && AllCovered(files, made) && Seconds(before) <= Seconds(stamp)
    requires MadeBefore(files, stamp) && !outcome.Made?
    ensures var left := Created(files, NameOf(stamp, priv), outcome);
            Sound(left, stamp) && AllCovered(left, made)
  {
    var name := NameOf(stamp, priv);
    SoundLater(files, before, stamp);
    SoundWithNew(files, before, stamp, priv);
    NewGoesLast(files, stamp, priv);
    SoundWithout(files, [name], stamp);
    WithoutMembers(files, [name]);
    CoveredByMore(files, Created(files, name, outcome), made);
  }

  lemma TryKeepsFiles(s: History, before: Civil, e: Event)
    requires Sound(s.host.files, before) && AllCovered(s.host.files, s.made) && IsRegular(before, e)
    requires e.Round? && Tries(s.host, e.now, e.turn)
    ensures Sound(Step(s, e).host.files, Ends(e)) && AllCovered(Step(s, e).host.files, Step(s, e).made)
  {
    var files, t := s.host.files, e.turn;
    SoundLater(files, before, e.now.at);
    DueIsMadeBefore(files, e.now, t.sched, t.answer.stamp);
    if t.answer.outcome.Made? {
      MadeKeepsFiles(files, s.made, before, t.answer.stamp, t.sched, t.answer.stuck);
    } else {
      FailureKeepsFiles(files, s.made, before, t.answer.stamp, t.sched.priv, t.answer.outcome);
    }
  }

  lemma StepKeepsFiles(s: History, before: Civil, e: Event)
    requires Sound(s.host.files, before) && AllCovered(s.host.files, s.made) && IsRegular(before, e)
    ensures Sound(Step(s, e).host.files, Ends(e)) && AllCovered(Step(s, e).host.files, Step(s, e).made)
  {
    SoundLater(s.host.files, before, Ends(e));
    if e.Round? && Tries(s.host, e.now, e.turn) {
      TryKeepsFiles(s, before, e);
    } else if e.ByHand? {
      SoundWithNew(s.host.files, before, e.at, e.priv);
      CoveredByMore(s.host.files, Added(s.host.files, NameOf(e.at, e.priv)), s.made);
    }
  }

  lemma StepKeepsOnce(s: History, before: Civil, e: Event)
    requires Sound(s.host.files, before) && AllCovered(s.host.files, s.made) && OncePerPeriod(s.made)
    requires IsRegular(before, e)
    ensures OncePerPeriod(Step(s, e).made)
  {
    if e.Round? && Tries(s.host, e.now, e.turn) {
      var files, sched, stamp := s.host.files, e.turn.sched, e.turn.answer.stamp;
      SoundLater(files, before, e.now.at);
      forall i | 0 <= i < |s.made| ensures PeriodOf(sched.interval, s.made[i].at) < PeriodOf(sched.interval, stamp) {
        assert Covered(files, s.made[i].at);
        var n :| n in files && IsDated(n) && Seconds(s.made[i].at) <= Seconds(StampIn(n));
        DueIsNewer(files, e.now, sched, stamp, n);
        TimesFollow(sched.interval, s.made[i].at, StampIn(n));
      }
    }
  }

  /** Over any run of turns, backups by hand and restarts, a host gets at most one
      successful scheduled backup in a day, ISO week or month. */
  lemma {:induction false} OneBackupPerPeriod(files: seq<string>, start: Civil, run: seq<Event>)
    requires Sound(files, start) && Regular(start, run)
    ensures OncePerPeriod(After(files, run).made)
    ensures AllCovered(After(files, run).host.files, After(files, run).made)
    ensures Sound(After(files, run).host.files, if run == [] then start else Ends(run[|run| - 1]))
  {
    if run != [] {
      var n := |run| - 1;
      OneBackupPerPeriod(files, start, run[..n]);
      var before := if n == 0 then start else Ends(run[n - 1]);
      StepKeepsOnce(After(files, run[..n]), before, run[n]);
      StepKeepsFiles(After(files, run[..n]), before, run[n]);
    }
  }

  // ------------------------------------------------------- attempts and announcements

  /** Any two attempts lie at least the throttle apart. */
  ghost predicate Apart(tried: seq<real>) {
    forall i, j :: 0 <= i < j < |tried| ==> tried[j] - tried[i] >= 1800.0
  }

  /** Failure and recovery take turns, and failure comes first. */
  ghost predicate Alternate(notices: seq<Notice>) {
    forall i :: 0 <= i < |notices| ==> notices[i] == if i % 2 == 0 then Failed else Recovered
  }

  /** What the memory of the process says of the past. */
  ghost predicate Remembers(s: History) {
    && Apart(s.tried) && Alternate(s.host.notices)
    && (s.tried != [] ==> s.host.lastAttempt == Some(s.tried[|s.tried| - 1]))
    && (s.host.failingSince.Some? <==> |s.host.notices| % 2 == 1)
  }

  lemma ApartWithNext(tried: seq<real>, at: real)
    requires Apart(tried) && (tried != [] ==> at - tried[|tried| - 1] >= THROTTLE)
    ensures Apart(tried + [at])
  {
  }

  lemma AlternateWithNext(notices: seq<Notice>, next: Notice)
    requires Alternate(notices) && next == if |notices| % 2 == 0 then Failed else Recovered
    ensures Alternate(notices + [next])
  {
  }

  /** What the turn does to the memory of the process. */
  lemma TurnNotices(h: Host, now: Moment, t: Turn)
    requires Tries(h, now, t)
    ensures var n := AfterTurn(h, now, t);
            && n.lastAttempt == Some(t.answer.started) && n.failingSince.None? == t.answer.outcome.Made?
            && n.notices == h.notices + if h.failingSince.None? == t.answer.outcome.Made? then []
                                        else [if t.answer.outcome.Made? then Recovered else Failed]
  {
  }

  /** One more attempt, and what it announces. */
  lemma RemembersNext(s: History, t: History, at: real, ok: bool)
    requires Remembers(s) && t.tried == s.tried + [at] && t.host.lastAttempt == Some(at)
    requires s.tried != [] ==> at - s.host.lastAttempt.GetOr(0.0) >= THROTTLE
    requires t.host.failingSince.None? == ok
    requires t.host.notices
          == s.host.notices + if s.host.failingSince.None? == ok then [] else [if ok then Recovered else Failed]
    ensures Remembers(t)
  {
    ApartWithNext(s.tried, at);
    AlternateWithNext(s.host.notices, if |s.host.notices| % 2 == 0 then Failed else Recovered);
  }

  lemma StepRemembers(s: History, e: Event)
    requires Remembers(s) && (e.Round? ==> e.turn.answer.checked <= e.turn.answer.started)
    ensures Remembers(Step(s, e))
  {
    if e.Round? && Tries(s.host, e.now, e.turn) {
      TurnNotices(s.host, e.now, e.turn);
      RemembersNext(s, Step(s, e), e.turn.answer.started, e.turn.answer.outcome.Made?);
    }
  }

  /** As long as a process lives, the attempts on a host are at least half an hour apart,
      and what is announced is failure, recovery, failure, and so on. */
  lemma {:induction false} AttemptsAreApart(files: seq<string>, run: seq<Event>)
    requires forall e :: e in run && e.Round? ==> e.turn.answer.checked <= e.turn.answer.started
    ensures Remembers(After(files, run))
  {
    if run != [] {
      var n := |run| - 1;
      AttemptsAreApart(files, run[..n]);
      StepRemembers(After(files, run[..n]), run[n]);
    }
  }
}
