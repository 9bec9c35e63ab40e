/** Holes in a chain of snapshots (`analyze_snapshots` of `app/snapshot_analysis.py`):
    intervals longer than one and a half times the usual one. */
module SnapshotGaps {
  import opened Sorting
  import opened Text

  const GAP_MIN_DELTAS := 3
  const LEADING_GAP_TOLERANCE := 3600

  /** Two snapshots that follow one another. */
  datatype Interval = Interval(from: int, to: int)

  function Length(): Interval -> int { (v: Interval) => v.to - v.from }

  function Intervals(times: seq<int>): seq<Interval> {
    seq(if times == [] then 0 else |times| - 1, i requires 0 <= i < |times| - 1 => Interval(times[i], times[i + 1]))
  }

  function Deltas(times: seq<int>): seq<int> { MapSeq(Length(), Intervals(times)) }

  /** The element in the middle, the upper one of two. */
  function Cadence(deltas: seq<int>): int
    requires deltas != []
  {
    SortKeepsElements(IntLe, deltas);
    Sort(IntLe, deltas)[|deltas| / 2]
  }

  /** More than one and a half times the cadence, which must be positive. */
  predicate IsHole(cadence: int, delta: int) { cadence > 0 && 2 * delta > 3 * cadence }

  /** The snapshot before the hole is not younger than the dataset itself. */
  predicate IsColdStart(creation: Option<int>, time: int) {
    creation.Some? && time <= creation.value + LEADING_GAP_TOLERANCE
  }

  predicate IsGap(creation: Option<int>, cadence: int, v: Interval) {
    IsHole(cadence, v.to - v.from) && !IsColdStart(creation, v.from)
  }

  function GapReader(creation: Option<int>, cadence: int): Interval -> Option<Interval> {
    v => if IsGap(creation, cadence, v) then Some(v) else None
  }

  /** The gaps reported for one dataset and label. */
  function GapsOf(times: seq<int>, creation: Option<int>): seq<Interval> {
    var deltas := Deltas(times);
    if |deltas| < GAP_MIN_DELTAS then [] else Collect(GapReader(creation, Cadence(deltas)), Intervals(times))
  }

  /** The loop of `analyze_snapshots`. */
  method FindGaps(times: seq<int>, creation: Option<int>) returns (gaps: seq<Interval>)
    ensures gaps == GapsOf(times, creation)
  {
    gaps := [];
    var deltas := Deltas(times);
    if |deltas| < GAP_MIN_DELTAS {
      return;
    }
    var cadence := Cadence(deltas);
    ghost var reader, intervals := GapReader(creation, cadence), Intervals(times);
    if cadence <= 0 {
      CollectsNothing(reader, intervals);
      return;
    }
    for i := 0 to |deltas|
      invariant gaps == Collect(reader, intervals[..i])
    {
      CollectNext(reader, intervals, i);
      DeltaAt(times, i);
      if 2 * deltas[i] <= 3 * cadence {
        continue;
      }
      if IsColdStart(creation, times[i]) {
        continue;
      }
      gaps := gaps + [Interval(times[i], times[i + 1])];
    }
    assert intervals[..|deltas|] == intervals;
  }

  lemma DeltaAt(times: seq<int>, i: nat)
    requires i < |Deltas(times)|
    ensures i + 1 < |times| && Intervals(times)[i] == Interval(times[i], times[i + 1])
    ensures Deltas(times)[i] == times[i + 1] - times[i]
  {
  }

  lemma {:induction false} CollectsNothing<T, U>(f: T -> Option<U>, items: seq<T>)
    requires forall i :: 0 <= i < |items| ==> f(items[i]).None?
    ensures Collect(f, items) == []
  {
    if items != [] {
      assert forall i :: 0 <= i < |items| - 1 ==> items[..|items| - 1][i] == items[i];
      CollectsNothing(f, items[..|items| - 1]);
    }
  }

  ghost predicate Neighbours(times: seq<int>, v: Interval) {
    exists i, j :: 0 <= i && j == i + 1 && j < |times| && times[i] == v.from && times[j] == v.to
  }

  lemma IntervalsAreNeighbours(times: seq<int>, v: Interval)
    ensures v in Intervals(times) <==> Neighbours(times, v)
    ensures |Deltas(times)| == if |times| < 2 then 0 else |times| - 1
  {
    if v in Intervals(times) {
      var i :| 0 <= i < |Intervals(times)| && Intervals(times)[i] == v;
      assert times[i] == v.from && times[i + 1] == v.to;
    }
    if i, j :| 0 <= i && j == i + 1 && j < |times| && times[i] == v.from && times[j] == v.to {
      assert Intervals(times)[i] == v;
    }
  }

  /** From four snapshots on, two neighbours are reported exactly when they lie more than one and a half times
      the positive cadence apart, and the earlier one is not within an hour of the dataset's creation. */
  lemma GapsAreExact(times: seq<int>, creation: Option<int>, v: Interval)
    ensures v in GapsOf(times, creation) <==>
              && |times| >= 4 && Neighbours(times, v)
              && var cadence := Cadence(Deltas(times));
              && cadence > 0 && 2 * (v.to - v.from) > 3 * cadence
              && !(creation.Some? && v.from - creation.value <= 3600)
  {
    IntervalsAreNeighbours(times, v);
    ReportedIff(times, creation, v);
  }

  lemma ReportedIff(times: seq<int>, creation: Option<int>, v: Interval)
    ensures v in GapsOf(times, creation) <==>
              |Deltas(times)| >= GAP_MIN_DELTAS && v in Intervals(times) && IsGap(creation, Cadence(Deltas(times)), v)
  {
    var deltas, intervals := Deltas(times), Intervals(times);
    if |deltas| >= GAP_MIN_DELTAS {
      var reader := GapReader(creation, Cadence(deltas));
      CollectMember(reader, intervals, v);
      if v in intervals {
        var i :| 0 <= i < |intervals| && intervals[i] == v;
        assert reader(intervals[i]) == if IsGap(creation, Cadence(deltas), v) then Some(v) else None;
      }
    }
  }

  // ------------------------------------------------------------------ how many

  function HoleIn(cadence: int): int -> bool { d => IsHole(cadence, d) }

  lemma {:induction false} CollectCounts<T, U>(f: T -> Option<U>, m: T -> int, p: int -> bool, items: seq<T>)
    requires forall x :: x in items && f(x).Some? ==> p(m(x))
    ensures |Collect(f, items)| <= Count(p, MapSeq(m, items))
  {
    if items != [] {
      var n := |items| - 1;
      CollectCounts(f, m, p, items[..n]);
      assert MapSeq(m, items) == MapSeq(m, items[..n]) + [m(items[n])];
      CountNext(p, MapSeq(m, items[..n]), m(items[n]));
    }
  }

  lemma {:induction false} CountNext(p: int -> bool, s: seq<int>, x: int)
    ensures Count(p, s + [x]) == Count(p, s) + if p(x) then 1 else 0
  {
    if s == [] {
      assert ([] + [x])[1..] == [];
    } else {
      assert (s + [x])[1..] == s[1..] + [x];
      CountNext(p, s[1..], x);
    }
  }

  /** What is greater than the middle lies behind it. */
  lemma {:induction false} HolesAreFew(deltas: seq<int>)
    requires deltas != []
    ensures Count(HoleIn(Cadence(deltas)), deltas) <= (|deltas| - 1) / 2
  {
    SortKeepsElements(IntLe, deltas);
    SortIsSorted(IntLe, deltas);
    var s, mid := Sort(IntLe, deltas), |deltas| / 2;
    var p := HoleIn(s[mid]);
    CountSort(IntLe, p, deltas);
    forall i | 0 <= i < |s| && p(s[i]) ensures mid + 1 <= i < |s| {
      SortedInts(s, i, mid);
    }
    CountWindow(p, s, mid + 1, |s|);
  }

  lemma SortedInts(s: seq<int>, i: nat, j: nat)
    requires SortedBy(IntLe, s) && i < |s| && j < |s|
    ensures i <= j ==> s[i] <= s[j]
  {
    assert i < j ==> IntLe(s[i], s[j]);
  }

  /** Of n intervals fewer than half are reported: at most (n - 1) / 2, rounded down. */
  lemma GapsAreFew(times: seq<int>, creation: Option<int>)
    requires |times| >= 2
    ensures |GapsOf(times, creation)| <= (|times| - 2) / 2
  {
    var deltas := Deltas(times);
    if |deltas| >= GAP_MIN_DELTAS {
      var cadence := Cadence(deltas);
      CollectCounts(GapReader(creation, cadence), Length(), HoleIn(cadence), Intervals(times));
      HolesAreFew(deltas);
    }
  }

  // ---------------------------------------------------------------------- which

  function InRange(lo: int, hi: int): int -> bool { d => lo <= d <= hi }

  /** Of two intervals the longer one counts. */
  lemma CadenceOfPair(a: int, b: int)
    ensures Cadence([a, b]) == if a < b then b else a
  {
    assert [a, b][1..] == [b] && [b][1..] == [];
    assert Sort(IntLe, []) == [] && Sort(IntLe, [b]) == Insert(IntLe, b, Sort(IntLe, [b][1..]));
    assert Sort(IntLe, [a, b]) == Insert(IntLe, a, Sort(IntLe, [a, b][1..]));
    InsertPair(a, b);
  }

  lemma {:induction false} InsertPair(a: int, b: int)
    ensures Insert(IntLe, a, [b]) == if a <= b then [a, b] else [b, a]
  {
    if a > b {
      assert [b][1..] == [];
      assert Insert(IntLe, a, []) == [a];
    }
  }

  /** The cadence lies in every range that holds more than half of the intervals. */
  lemma {:induction false} CadenceFollowsMajority(deltas: seq<int>, lo: int, hi: int)
    requires deltas != [] && 2 * Count(InRange(lo, hi), deltas) > |deltas|
    ensures lo <= Cadence(deltas) <= hi
  {
    SortKeepsElements(IntLe, deltas);
    SortIsSorted(IntLe, deltas);
    var p, s, mid := InRange(lo, hi), Sort(IntLe, deltas), |deltas| / 2;
    CountSort(IntLe, p, deltas);
    if s[mid] > hi {
      forall i | 0 <= i < |s| && p(s[i]) ensures 0 <= i < mid {
        SortedInts(s, mid, i);
      }
      CountWindow(p, s, 0, mid);
    }
    if s[mid] < lo {
      forall i | 0 <= i < |s| && p(s[i]) ensures mid + 1 <= i < |s| {
        SortedInts(s, i, mid);
      }
      CountWindow(p, s, mid + 1, |s|);
    }
  }

  /** When most intervals lie between `lo` and `hi`, every interval longer than one and a
      half times `hi` is a hole, and none up to one and a half times `lo` is. */
  lemma {:induction false} HolesAgainstUsual(deltas: seq<int>, lo: int, hi: int, d: int)
    requires deltas != [] && 0 < lo && 2 * Count(InRange(lo, hi), deltas) > |deltas|
    ensures 2 * d > 3 * hi ==> IsHole(Cadence(deltas), d)
    ensures 2 * d <= 3 * lo ==> !IsHole(Cadence(deltas), d)
  {
    CadenceFollowsMajority(deltas, lo, hi);
  }

  /** A chain whose longest interval is at most one and a half times its shortest is never reported. */
  lemma RegularChainIsNotReported(times: seq<int>, creation: Option<int>, shortest: int, longest: int)
    requires forall d :: d in Deltas(times) ==> shortest <= d <= longest
    requires 2 * longest <= 3 * shortest
    ensures GapsOf(times, creation) == []
  {
    var deltas, intervals := Deltas(times), Intervals(times);
    if |deltas| >= GAP_MIN_DELTAS {
      CountAll(InRange(shortest, longest), deltas);
      CadenceFollowsMajority(deltas, shortest, longest);
      forall i | 0 <= i < |intervals| ensures !IsGap(creation, Cadence(deltas), intervals[i]) {
        assert deltas[i] in deltas;
      }
      CollectsNothing(GapReader(creation, Cadence(deltas)), intervals);
    }
  }
}
