/** Alerts about replication that lags behind (`_classify` and `_maybe_alert_locked` of
    `app/replication_monitor.py`): one message when a pair turns bad, one when it is well
    again, reminders in between. */
module LagAlerts {
  import opened Text

  /** `Pending`: the replica has no snapshot. `NoSchedule`: nor is there a schedule.
      `Standby`: the source is expected to be off. */
  datatype Status = Ok | Warn | Crit | Pending | NoSchedule | Standby

  const WARN_FACTOR := 2
  const CRIT_FACTOR := 4
  const DEFAULT_INTERVAL := 3600
  const COOLDOWN := 21600

  /** `_classify` */
  function Classify(lag: Option<int>, interval: int): Status {
    var usual := if interval <= 0 then DEFAULT_INTERVAL else interval;
    if lag.None? then Pending
    else if lag.value <= usual * WARN_FACTOR then Ok
    else if lag.value <= usual * CRIT_FACTOR then Warn
    else Crit
  }

  /** `Turned` is the message about a new status, `Well` that of recovery, `Still` the reminder. */
  datatype Notice = Turned(status: Status) | Well | Still

  datatype Row = Row(status: Option<Status>, alerted: Option<int>)

  const NO_ROW := Row(None, None)

  /** One check of the pair. `muted`: the source is muted. */
  datatype Check = Check(status: Status, muted: bool, clock: int)

  predicate IsBad(s: Status) { s.Warn? || s.Crit? }

  /** A status about which nothing is ever said. */
  predicate IsSilent(s: Status) { !IsBad(s) && !s.Ok? }

  predicate ReminderDue(row: Row, clock: int) {
    row.alerted.None? || row.alerted.value == 0 || clock - row.alerted.value >= COOLDOWN
  }

  /** What is to be said, whoever listens. */
  function ToSay(row: Row, c: Check): Option<Notice> {
    if row.status != Some(c.status) && IsBad(c.status) then Some(Turned(c.status))
    else if c.status.Ok? && row.status.Some? && IsBad(row.status.value) then Some(Well)
    else if c.status.Crit? && ReminderDue(row, c.clock) then Some(Still)
    else None
  }

  function Said(row: Row, c: Check): seq<Notice> { if c.muted then [] else Maybe(ToSay(row, c)) }

  /** The status is stored in any case, the time only with a message. */
  function RowAfter(row: Row, c: Check): Row {
    Row(Some(c.status), if Said(row, c) != [] then Some(c.clock) else row.alerted)
  }

  /** The row of one pair. */
  class Pair {
    var row: Row
    var sent: seq<Notice>

    constructor ()
      ensures row == NO_ROW && sent == []
    {
      row, sent := NO_ROW, [];
    }

    /** `_maybe_alert_locked` */
    method MaybeAlert(c: Check)
      modifies this
      ensures row == RowAfter(old(row), c) && sent == old(sent) + Said(old(row), c)
    {
      var prev, last := row.status, row.alerted;
      var transition := prev != Some(c.status);
      row := Row(Some(c.status), last);
      var notice: Option<Notice> := None;
      if transition {
        if IsBad(c.status) {
          notice := Some(Turned(c.status));
        } else if c.status.Ok? && prev.Some? && IsBad(prev.value) {
          notice := Some(Well);
        }
      }
      if notice.None? && c.status.Crit? {
        if last.None? || last.value == 0 || c.clock - last.value >= COOLDOWN {
          notice := Some(Still);
        }
      }
      if notice.None? || c.muted {
        return;
      }
      sent := sent + [notice.value];
      row := Row(Some(c.status), Some(c.clock));
    }
  }

  // ---------------------------------------------------------------- the scale

  /** Well is best, critical is worst. */
  predicate NoWorse(s: Status, t: Status) { (t == Ok ==> s == Ok) && (s == Crit ==> t == Crit) }

  /** A longer lag is never judged better, a longer interval never worse. */
  lemma LongerLagIsNoBetter(a: int, b: int, interval: int, longer: int)
    requires a <= b && 0 < interval <= longer
    ensures NoWorse(Classify(Some(a), interval), Classify(Some(b), interval))
    ensures NoWorse(Classify(Some(a), longer), Classify(Some(a), interval))
  {
  }

  /** The bands of the scale: up to twice the interval is well, up to four times a warning, more is critical;
      without a usable interval an hour counts. A replica without a snapshot is pending. */
  lemma Bands(lag: int, interval: int)
    ensures var usual := if interval > 0 then interval else 3600;
            && (Classify(Some(lag), interval) == Ok <==> lag <= 2 * usual)
            && (Classify(Some(lag), interval) == Warn <==> 2 * usual < lag <= 4 * usual)
            && (Classify(Some(lag), interval) == Crit <==> lag > 2 * usual && lag > 4 * usual)
    ensures Classify(None, interval) == Pending
  {
  }

  /** Warning and critical are announced when they are new, being well again after them, nothing else but
      reminders; a muted pair is silent. */
  lemma ChangesAreSaid(row: Row, c: Check)
    ensures c.muted ==> Said(row, c) == []
    ensures !c.muted && c.status in {Warn, Crit} && row.status != Some(c.status) ==> Said(row, c) == [Turned(c.status)]
    ensures !c.muted && c.status == Ok ==>
              Said(row, c) == if row.status in {Some(Warn), Some(Crit)} then [Well] else []
    ensures c.status in {Pending, NoSchedule, Standby} ==> Said(row, c) == []
    ensures c.status == Warn && row.status == Some(Warn) ==> Said(row, c) == []
    ensures row.status == Some(c.status) == Some(Crit) && !c.muted ==> Said(row, c) == [] || Said(row, c) == [Still]
  {
  }

  // ------------------------------------------------------------ whole histories

  /** `hidden`: since the last message about a bad status the pair has had a silent status. */
  datatype History = History(row: Row, log: seq<Notice>, hidden: bool)

  function Step(s: History, c: Check): History {
    var said := Said(s.row, c);
    History(RowAfter(s.row, c), s.log + said,
            if IsBad(c.status) then false else s.hidden || IsSilent(c.status))
  }

  function After(run: seq<Check>): History {
    if run == [] then History(NO_ROW, [], false) else Step(After(run[..|run| - 1]), run[|run| - 1])
  }

  /** The last word was that something is wrong. */
  predicate Open(log: seq<Notice>) { log != [] && !log[|log| - 1].Well? }

  /** Every recovery answers an open trouble. */
  ghost predicate Answers(log: seq<Notice>) {
    forall i :: 0 <= i < |log| && log[i].Well? ==> i > 0 && !log[i - 1].Well?
  }

  ghost predicate Sound(s: History) {
    && Answers(s.log)
    && (s.row.status.Some? && IsBad(s.row.status.value) ==> Open(s.log) && !s.hidden)
    && (s.row.status.Some? && IsSilent(s.row.status.value) ==> s.hidden)
    && (s.row.status == Some(Ok) && Open(s.log) ==> s.hidden)
    && (s.row.status.None? ==> s.log == [])
  }

  ghost predicate Heard(run: seq<Check>) { forall c :: c in run ==> !c.muted }

  lemma AnswersNext(log: seq<Notice>, next: Notice)
    requires Answers(log) && (next.Well? ==> Open(log))
    ensures Answers(log + [next])
  {
  }

  lemma StepIsSound(s: History, c: Check)
    requires Sound(s) && !c.muted
    ensures Sound(Step(s, c))
  {
    if ToSay(s.row, c).Some? {
      AnswersNext(s.log, ToSay(s.row, c).value);
    }
  }

  /** In every run that nobody mutes, each recovery answers a trouble announced since the
      last recovery; a bad pair has been announced; and a trouble is left without its
      recovery when the pair is well only if it had a silent status in between. */
  lemma {:induction false} TroublesAreAnswered(run: seq<Check>)
    requires Heard(run)
    ensures Sound(After(run))
  {
    if run != [] {
      var n := |run| - 1;
      TroublesAreAnswered(run[..n]);
      assert run[n] in run;
      StepIsSound(After(run[..n]), run[n]);
    }
  }

  /** When the pair is well again after an open trouble, this is said exactly when the
      check before was a bad one: a pair that had a silent status in between comes back
      without a word. */
  lemma {:induction false} RecoveryIsSaidIff(run: seq<Check>, clock: int)
    requires Heard(run) && Open(After(run).log) && After(run).row.status != Some(Ok)
    ensures var s := After(run); var t := Step(s, Check(Ok, false, clock));
            s.row.status.Some? && (Open(t.log) <==> s.hidden) && (s.hidden <==> IsSilent(s.row.status.value))
  {
    TroublesAreAnswered(run);
  }

  // ------------------------------------------------------------------ reminders

  function Runs(row: Row, run: seq<Check>): Row {
    if run == [] then row else RowAfter(Runs(row, run[..|run| - 1]), run[|run| - 1])
  }

  /** A stretch of checks that all find the pair critical, at times that do not go back. */
  ghost predicate Critical(run: seq<Check>) {
    && (forall i :: 0 <= i < |run| ==> run[i].status.Crit? && !run[i].muted && run[i].clock > 0)
    && forall i, j :: 0 <= i < j < |run| ==> run[i].clock <= run[j].clock
  }

  predicate SaysAt(row: Row, run: seq<Check>, i: nat)
    requires i < |run|
  {
    Said(Runs(row, run[..i]), run[i]) != []
  }

  /** The stored time is that of the last message of the stretch. */
  lemma {:induction false} LastMessageIsKept(row: Row, run: seq<Check>, i: nat)
    requires Critical(run) && i < |run| && SaysAt(row, run, i)
    requires forall k :: i < k < |run| ==> !SaysAt(row, run, k)
    ensures Runs(row, run) == Row(Some(Crit), Some(run[i].clock))
  {
    var n := |run| - 1;
    if i < n {
      assert run[..n][..i] == run[..i];
      forall k | i < k < n ensures !SaysAt(row, run[..n], k) {
        assert run[..n][..k] == run[..k];
        assert !SaysAt(row, run, k);
      }
      LastMessageIsKept(row, run[..n], i);
      assert !SaysAt(row, run, n);
    }
  }

  /** While a pair stays critical, the next message comes at the first check that is at
      least six hours after the last one, and at none before. */
  lemma ReminderComesIff(row: Row, run: seq<Check>, i: nat, j: nat)
    requires Critical(run) && i < j < |run| && SaysAt(row, run, i)
    requires forall k :: i < k < j ==> !SaysAt(row, run, k)
    ensures SaysAt(row, run, j) <==> run[j].clock - run[i].clock >= 21600
  {
    assert run[..j][..i] == run[..i];
    forall k | i < k < j ensures !SaysAt(row, run[..j], k) {
      assert run[..j][..k] == run[..k];
      assert !SaysAt(row, run, k);
    }
    LastMessageIsKept(row, run[..j], i);
  }
}
