/** The alert machines of `app/monitor.py`: a host that goes down and comes back, and
    values whose rise is announced no more often than a cooldown allows. */
module Monitor {
  import opened Text

  /** A row of the table `monitor_state`. */
  datatype Row<V> = Row(value: V, alerted: Option<int>)

  /** `_state_set`: without a new alert time the old one stays. */
  function Stored<V>(row: Option<Row<V>>, value: V, alert: Option<int>): Row<V> {
    Row(value, if alert.Some? then alert else if row.Some? then row.value.alerted else None)
  }

  /** Python takes a missing time and the time 0 for false. */
  predicate Truthy(t: Option<int>) { t.Some? && t.value != 0 }

  /** `_cooldown_ok` */
  predicate CooldownOver(alerted: Option<int>, cooldown: int, clock: int) {
    Truthy(alerted) ==> clock - alerted.value >= cooldown
  }

  /** The cooldown is over from its last second on; none has begun when no alert is noted. */
  lemma CooldownIff(alerted: Option<int>, cooldown: int, clock: int)
    ensures CooldownOver(alerted, cooldown, clock) <==>
            alerted == None || alerted == Some(0) || clock > alerted.value + cooldown - 1
  {
  }

  datatype Status = Up | Down

  datatype Notice = Offline | BackOnline

  /** A probe of a host at a time, which may be marked as expected offline. */
  datatype Probe = Probe(reachable: bool, standby: bool, clock: int)

  function Observed(p: Probe): Status { if p.reachable then Up else Down }

  /** The row after `check_host_reachability`. */
  function RowAfter(row: Option<Row<Status>>, p: Probe): Option<Row<Status>> {
    if p.standby || row.None? then Some(Stored(row, Observed(p), None))
    else if row.value.value == Observed(p) then row
    else Some(Stored(row, Observed(p), Some(if p.reachable then 0 else p.clock)))
  }

  /** What it sends. */
  function Sends(row: Option<Row<Status>>, p: Probe): seq<Notice> {
    if p.standby || row.None? || row.value.value == Observed(p) then []
    else if !p.reachable then [Offline]
    else if Truthy(row.value.alerted) then [BackOnline]
    else []
  }

  /** A value to watch: the fill level of a pool, its number of errors. */
  datatype Reading = Reading(value: nat, clock: int)

  predicate Alarms(row: Option<Row<nat>>, r: Reading, cooldown: int) {
    && r.value > (if row.Some? then row.value.value else 0)
    && CooldownOver(if row.Some? then row.value.alerted else None, cooldown, r.clock)
  }

  /** The new value is stored, whether it was announced or not. */
  function RowAfterReading(row: Option<Row<nat>>, r: Reading, cooldown: int): Row<nat> {
    Stored(row, r.value, if Alarms(row, r, cooldown) then Some(r.clock) else None)
  }

  const CAPACITY_COOLDOWN := 43200
  const ERROR_COOLDOWN := 21600

  /** `capacity_level`, with `_LEVEL_ORDER` */
  function CapacityLevel(cap: real, warn: real, crit: real): nat {
    if cap >= crit then 2 else if cap >= warn then 1 else 0
  }

  function PoolKey(address: string, pool: string): string { address + ":" + pool }

  datatype Alert =
    | HostAlert(address: string, notice: Notice)
    | CapacityAlert(key: string, level: nat)
    | ErrorAlert(key: string, total: nat)

  function HostAlerts(address: string, notices: seq<Notice>): seq<Alert> {
    seq(|notices|, i requires 0 <= i < |notices| => HostAlert(address, notices[i]))
  }

  /** A pool as it is listed, with its fill percentage when that can be read. */
  datatype Pool = Pool(name: string, cap: Option<real>)

  predicate Listed(p: Pool) { p.name != [] && p.cap.Some? }

  function LevelOf(p: Pool, warn: real, crit: real): nat { CapacityLevel(p.cap.GetOr(0.0), warn, crit) }

  /** The rows and the alerts after the first pools of a listing. */
  function CapacityAfter(rows: map<string, Row<nat>>, address: string, pools: seq<Pool>, warn: real, crit: real,
                         clock: int): map<string, Row<nat>> {
    if pools == [] then rows
    else
      var p := pools[|pools| - 1];
      var m := CapacityAfter(rows, address, pools[..|pools| - 1], warn, crit, clock);
      var k := PoolKey(address, p.name);
      var r := Reading(LevelOf(p, warn, crit), clock);
      if Listed(p) then m[k := RowAfterReading(Fetch(m, k), r, CAPACITY_COOLDOWN)] else m
  }

  function CapacityAlerts(rows: map<string, Row<nat>>, address: string, pools: seq<Pool>, warn: real, crit: real,
                          clock: int): seq<Alert> {
    if pools == [] then []
    else
      var p := pools[|pools| - 1];
      var m := CapacityAfter(rows, address, pools[..|pools| - 1], warn, crit, clock);
      var k := PoolKey(address, p.name);
      CapacityAlerts(rows, address, pools[..|pools| - 1], warn, crit, clock)
      + if Listed(p) && Alarms(Fetch(m, k), Reading(LevelOf(p, warn, crit), clock), CAPACITY_COOLDOWN)
        then [CapacityAlert(k, LevelOf(p, warn, crit))] else []
  }

  /** The levels are the bands between the thresholds, the higher one first. */
  lemma LevelsAreBands(cap: real, warn: real, crit: real)
    ensures CapacityLevel(cap, warn, crit) == 2 <==> cap >= crit
    ensures CapacityLevel(cap, warn, crit) == 1 <==> warn <= cap < crit
    ensures CapacityLevel(cap, warn, crit) == 0 <==> cap < warn && cap < crit
  {
  }

  /** The rows of two pools are told apart, as long as no address holds a colon. */
  lemma PoolKeysDiffer(a: string, p: string, b: string, q: string)
    requires ':' !in a && ':' !in b
    ensures PoolKey(a, p) == PoolKey(b, q) <==> a == b && p == q
  {
    CutAt(a, ':', p, PoolKey(a, p));
    CutAt(b, ':', q, PoolKey(b, q));
  }

  /** A pool without a name or without a readable fill level is passed over; any other is judged by its
      fill level, with twelve hours between two alarms. */
  lemma {:induction false} NextPool(rows: map<string, Row<nat>>, address: string, pools: seq<Pool>, p: Pool, warn: real,
                                    crit: real, clock: int)
    ensures var m := CapacityAfter(rows, address, pools, warn, crit, clock);
            CapacityAfter(rows, address, pools + [p], warn, crit, clock) ==
            if p.name == "" || p.cap.None? then m
            else
              var k := address + ":" + p.name;
              m[k := RowAfterReading(Fetch(m, k), Reading(CapacityLevel(p.cap.value, warn, crit), clock), 12 * 3600)]
  {
    assert (pools + [p])[..|pools|] == pools;
  }

  /** The table, one map for each scope, and what has been sent. */
  class Table {
    var hosts: map<string, Row<Status>>
    var capacity: map<string, Row<nat>>
    var errors: map<string, Row<nat>>
    var sent: seq<Alert>

    constructor ()
      ensures hosts == map[] && capacity == map[] && errors == map[] && sent == []
    {
      hosts, capacity, errors, sent := map[], map[], map[], [];
    }

    /** `check_host_reachability` */
    method CheckHostReachability(address: string, p: Probe)
      modifies this
      ensures Fetch(hosts, address) == RowAfter(Fetch(old(hosts), address), p)
      ensures forall a :: a != address ==> Fetch(hosts, a) == Fetch(old(hosts), a)
      ensures sent == old(sent) + HostAlerts(address, Sends(Fetch(old(hosts), address), p))
      ensures capacity == old(capacity) && errors == old(errors)
    {
      var row := Fetch(hosts, address);
      if p.standby || row.None? {
        hosts := hosts[address := Stored(row, Observed(p), None)];
        return;
      }
      if row.value.value == Observed(p) {
        return;
      }
      if !p.reachable {
        sent := sent + [HostAlert(address, Offline)];
        hosts := hosts[address := Stored(row, Down, Some(p.clock))];
        return;
      }
      if Truthy(row.value.alerted) {
        sent := sent + [HostAlert(address, BackOnline)];
      }
      hosts := hosts[address := Stored(row, Up, Some(0))];
    }

    /** `check_capacity` */
    method CheckCapacity(address: string, pools: seq<Pool>, warn: real, crit: real, clock: int)
      modifies this
      ensures capacity == CapacityAfter(old(capacity), address, pools, warn, crit, clock)
      ensures sent == old(sent) + CapacityAlerts(old(capacity), address, pools, warn, crit, clock)
      ensures hosts == old(hosts) && errors == old(errors)
    {
      for i := 0 to |pools|
        invariant capacity == CapacityAfter(old(capacity), address, pools[..i], warn, crit, clock)
        invariant sent == old(sent) + CapacityAlerts(old(capacity), address, pools[..i], warn, crit, clock)
        invariant hosts == old(hosts) && errors == old(errors)
      {
        assert pools[..i + 1][..i] == pools[..i];
        var p := pools[i];
        if Listed(p) {
          var k := PoolKey(address, p.name);
          var r := Reading(LevelOf(p, warn, crit), clock);
          var row := Fetch(capacity, k);
          if Alarms(row, r, CAPACITY_COOLDOWN) {
            sent := sent + [CapacityAlert(k, r.value)];
            capacity := capacity[k := Stored(row, r.value, Some(clock))];
          } else {
            capacity := capacity[k := Stored(row, r.value, None)];
          }
        }
      }
      assert pools[..|pools|] == pools;
    }

    /** One pool of `check_pool_errors`: an unchanged total is not stored again. */
    method CheckPoolErrors(key: string, r: Reading)
      modifies this
      ensures if r.value == (if key in old(errors) then old(errors)[key].value else 0)
              then errors == old(errors) && sent == old(sent)
              else && errors == old(errors)[key := RowAfterReading(Fetch(old(errors), key), r, 6 * 3600)]
                   && sent == old(sent) +
                      if Alarms(Fetch(old(errors), key), r, ERROR_COOLDOWN) then [ErrorAlert(key, r.value)] else []
      ensures hosts == old(hosts) && capacity == old(capacity)
    {
      var row := Fetch(errors, key);
      if r.value == (if row.Some? then row.value.value else 0) {
        return;
      }
      if Alarms(row, r, ERROR_COOLDOWN) {
        sent := sent + [ErrorAlert(key, r.value)];
        errors := errors[key := Stored(row, r.value, Some(r.clock))];
      } else {
        errors := errors[key := Stored(row, r.value, None)];
      }
    }
  }

  // -------------------------------------------------------- runs of one host

  /** A probe, or the host is taken out of the tool (`clear_host_state`). */
  datatype Event = Probed(probe: Probe) | Removed

  /** Beside the row and what was sent: was "Offline" sent when this down phase began, and
      has a probe that must not notify found the host up since the last "Offline"? */
  datatype History = History(row: Option<Row<Status>>, log: seq<Notice>, told: bool, upUnseen: bool)

  predicate GoesDown(row: Option<Row<Status>>, p: Probe) { !p.reachable && (row.None? || row.value.value.Up?) }

  function Step(s: History, e: Event): History {
    match e
    case Removed => History(None, s.log, false, false)
    case Probed(p) =>
      var sends := Sends(s.row, p);
      History(RowAfter(s.row, p), s.log + sends,
              if p.reachable then false else if GoesDown(s.row, p) then sends == [Offline] else s.told,
              if sends != [] then false else s.upUnseen || (p.standby && p.reachable))
  }

  function After(run: seq<Event>): History {
    if run == [] then History(None, [], false, false) else Step(After(run[..|run| - 1]), run[|run| - 1])
  }

  /** Times are counted from 1970 on: none is 0 or negative. */
  ghost predicate Timed(run: seq<Event>) {
    forall e :: e in run && e.Probed? ==> e.probe.clock > 0
  }

  /** Whether an "Offline" is still unanswered. */
  predicate Pending(log: seq<Notice>) { log != [] && log[|log| - 1] == Offline }

  /** Every "Back Online" answers an "Offline" sent right before it. */
  ghost predicate Answers(log: seq<Notice>) {
    forall i :: 0 <= i < |log| && log[i] == BackOnline ==> i > 0 && log[i - 1] == Offline
  }

  /** The stored alert time says that an "Offline" is unanswered; and it belongs to the
      present down phase unless a silent probe has seen the host up in between. */
  ghost predicate Sound(s: History) {
    && Answers(s.log)
    && (s.row.Some? && Truthy(s.row.value.alerted) ==> Pending(s.log))
    && (s.told ==> s.row.Some? && s.row.value.value.Down? && Truthy(s.row.value.alerted) && !s.upUnseen)
    && (s.row.Some? && s.row.value.value.Down? && Truthy(s.row.value.alerted) && !s.upUnseen ==> s.told)
    && (s.row.Some? && s.row.value.value.Up? && Truthy(s.row.value.alerted) ==> s.upUnseen)
  }

  lemma AnswersNext(log: seq<Notice>, next: Notice)
    requires Answers(log) && (next == BackOnline ==> Pending(log))
    ensures Answers(log + [next])
  {
  }

  lemma StepIsSound(s: History, e: Event)
    requires Sound(s) && (e.Probed? ==> e.probe.clock > 0)
    ensures Sound(Step(s, e))
  {
    if e.Probed? && Sends(s.row, e.probe) != [] {
      AnswersNext(s.log, Sends(s.row, e.probe)[0]);
    }
  }

  /** In every run of probes, changes of the standby mark and removals, each "Back Online"
      follows an "Offline" sent since the previous "Back Online". */
  lemma {:induction false} RecoveryFollowsOutage(run: seq<Event>)
    requires Timed(run)
    ensures Sound(After(run)) && Answers(After(run).log)
  {
    if run != [] {
      var n := |run| - 1;
      RecoveryFollowsOutage(run[..n]);
      assert run[n] in run;
      StepIsSound(After(run[..n]), run[n]);
    }
  }

  /** "Back Online" is sent exactly for a down phase that was announced, if and only if no
      silent probe has found the host up since an "Offline" that is unanswered. */
  lemma {:induction false} RecoveryIsForThisPhaseIff(run: seq<Event>, p: Probe)
    requires Timed(run) && p.reachable && !p.standby
    requires var s := After(run); s.row.Some? && s.row.value.value.Down?
    ensures var s := After(run);
            (Sends(s.row, p) == [BackOnline] <==> s.told) <==> !(s.upUnseen && Truthy(s.row.value.alerted))
  {
    RecoveryFollowsOutage(run);
  }

  /** A host announced as down, seen up and down again while marked, comes back with a
      recovery for an outage nobody was told about. */
  lemma {:induction false} StandbyKeepsOldAlert(run: seq<Event>, a: int, b: int, c: int)
    requires Timed(run) && After(run).told && a > 0 && b > 0 && c > 0
    ensures var quiet := run + [Probed(Probe(true, true, a)), Probed(Probe(false, true, b))];
            !After(quiet).told && Sends(After(quiet).row, Probe(true, false, c)) == [BackOnline]
  {
    RecoveryFollowsOutage(run);
    var up, down := Probed(Probe(true, true, a)), Probed(Probe(false, true, b));
    assert (run + [up, down])[..|run| + 1] == run + [up];
    assert (run + [up])[..|run|] == run;
  }

  /** Never marked, never removed. */
  ghost predicate Plain(run: seq<Event>) {
    forall e :: e in run ==> e.Probed? && !e.probe.standby
  }

  ghost predicate Alternate(log: seq<Notice>) {
    forall i :: 0 <= i < |log| ==> log[i] == if i % 2 == 0 then Offline else BackOnline
  }

  ghost predicate PlainSound(s: History) {
    && Alternate(s.log)
    && (|s.log| % 2 == 1 <==> s.row.Some? && Truthy(s.row.value.alerted))
    && (s.row.Some? && Truthy(s.row.value.alerted) ==> s.row.value.value.Down?)
  }

  lemma AlternateNext(log: seq<Notice>, next: Notice)
    requires Alternate(log) && next == if |log| % 2 == 0 then Offline else BackOnline
    ensures Alternate(log + [next])
  {
  }

  /** With the mark left off the two alternate strictly, starting with "Offline". */
  lemma {:induction false} OutagesAlternate(run: seq<Event>)
    requires Timed(run) && Plain(run)
    ensures PlainSound(After(run)) && Alternate(After(run).log)
  {
    if run != [] {
      var n := |run| - 1;
      OutagesAlternate(run[..n]);
      assert run[n] in run;
      var s := After(run[..n]);
      if Sends(s.row, run[n].probe) != [] {
        AlternateNext(s.log, Sends(s.row, run[n].probe)[0]);
      }
    }
  }

  // ---------------------------------------------- values with a cooldown on alarms

  function RowOf(row: Option<Row<nat>>, cooldown: int, readings: seq<Reading>): Option<Row<nat>> {
    if readings == [] then row
    else
      var n := |readings| - 1;
      Some(RowAfterReading(RowOf(row, cooldown, readings[..n]), readings[n], cooldown))
  }

  /** Whether the reading at this place is announced. */
  predicate AlarmsAt(row: Option<Row<nat>>, cooldown: int, readings: seq<Reading>, i: nat)
    requires i < |readings|
  {
    Alarms(RowOf(row, cooldown, readings[..i]), readings[i], cooldown)
  }

  ghost predicate Clocked(readings: seq<Reading>) {
    && (forall i :: 0 <= i < |readings| ==> readings[i].clock > 0)
    && forall i, j :: 0 <= i < j < |readings| ==> readings[i].clock <= readings[j].clock
  }

  /** The stored alert time is that of the last alarm, or older. */
  lemma {:induction false} AlertTimeIsKept(row: Option<Row<nat>>, cooldown: int, readings: seq<Reading>, i: nat)
    requires Clocked(readings) && i < |readings| && AlarmsAt(row, cooldown, readings, i)
    ensures var r := RowOf(row, cooldown, readings);
            r.Some? && Truthy(r.value.alerted) && r.value.alerted.value >= readings[i].clock
  {
    var n := |readings| - 1;
    if i < n {
      assert readings[..n][..i] == readings[..i];
      AlertTimeIsKept(row, cooldown, readings[..n], i);
    }
  }

  /** Two alarms about one value lie at least the cooldown apart. */
  lemma AlarmsAreApart(row: Option<Row<nat>>, cooldown: int, readings: seq<Reading>, i: nat, j: nat)
    requires Clocked(readings) && i < j < |readings|
    requires AlarmsAt(row, cooldown, readings, i) && AlarmsAt(row, cooldown, readings, j)
    ensures readings[j].clock - readings[i].clock >= cooldown
  {
    assert readings[..j][..i] == readings[..i];
    AlertTimeIsKept(row, cooldown, readings[..j], i);
  }

  lemma {:induction false} NoRiseNoAlarm(row: Option<Row<nat>>, cooldown: int, readings: seq<Reading>, v: nat, i: nat)
    requires row.Some? && row.value.value == v && i < |readings|
    requires forall k :: 0 <= k < |readings| ==> readings[k].value == v
    ensures !AlarmsAt(row, cooldown, readings, i)
  {
    if i > 0 {
      assert readings[..i][..i - 1] == readings[..i - 1];
      NoRiseNoAlarm(row, cooldown, readings, v, i - 1);
    }
  }

  lemma {:induction false} RowOfTail(row: Option<Row<nat>>, cooldown: int, first: Reading, rest: seq<Reading>)
    ensures RowOf(row, cooldown, [first] + rest) == RowOf(Some(RowAfterReading(row, first, cooldown)), cooldown, rest)
  {
    var all := [first] + rest;
    if rest == [] {
      assert all[..0] == [];
    } else {
      assert all[..|all| - 1] == [first] + rest[..|rest| - 1];
      RowOfTail(row, cooldown, first, rest[..|rest| - 1]);
    }
  }

  /** A value that rises and stays there is announced if and only if the cooldown was over
      when it rose: a rise within the cooldown is stored, and never announced later. */
  lemma RiseIsAnnouncedIff(row: Row<nat>, cooldown: int, first: Reading, rest: seq<Reading>)
    requires first.value > row.value && forall k :: 0 <= k < |rest| ==> rest[k].value == first.value
    ensures (exists i :: 0 <= i < |[first] + rest| && AlarmsAt(Some(row), cooldown, [first] + rest, i))
            <==> CooldownOver(row.alerted, cooldown, first.clock)
  {
    var all := [first] + rest;
    assert all[..0] == [];
    assert AlarmsAt(Some(row), cooldown, all, 0) <==> CooldownOver(row.alerted, cooldown, first.clock);
    var next := Some(RowAfterReading(Some(row), first, cooldown));
    forall i | 1 <= i < |all| ensures !AlarmsAt(Some(row), cooldown, all, i) {
      assert all[..i] == [first] + rest[..i - 1];
      RowOfTail(Some(row), cooldown, first, rest[..i - 1]);
      NoRiseNoAlarm(next, cooldown, rest, first.value, i - 1);
    }
  }
}
