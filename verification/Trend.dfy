/** The growth trend of a pool: hourly medians, the Theil-Sen slope and the projected
    time to full of `app/analytics.py`, over exact reals. */
module Trend {
  import opened Grouping
  import opened Sorting
  import opened Text

  datatype Sample = Sample(timestamp: int, value: real)

  datatype Bucket = Bucket(time: int, value: real)

  datatype Point = Point(x: real, y: real)

  // ------------------------------------------------------------- bucket_medians

  const BUCKET_SECONDS := 3600

  /** The hour of a sample. */
  function BucketKey(s: Sample): int { s.timestamp / BUCKET_SECONDS }

  /** The buckets in the order in which they first occur. */
  function BucketKeys(samples: seq<Sample>): seq<int> {
    if samples == [] then []
    else
      var n := |samples| - 1;
      var keys := BucketKeys(samples[..n]);
      var k := BucketKey(samples[n]);
      if k in keys then keys else keys + [k]
  }

  function ValueOf(s: Sample): real { s.value }

  function Values(samples: seq<Sample>): seq<real> { MapSeq(ValueOf, samples) }

  function Content(samples: seq<Sample>, k: int): seq<real> { Values(Select(samples, BucketKey, k)) }

  function MedianOr(values: seq<real>): real { if values == [] then 0.0 else MedianOf(values) }

  function BucketAt(samples: seq<Sample>): int -> Bucket {
    (k: int) => Bucket(k * BUCKET_SECONDS, MedianOr(Content(samples, k)))
  }

  function SortedKeys(samples: seq<Sample>): seq<int> { Sort(IntLe, BucketKeys(samples)) }

  function Buckets(samples: seq<Sample>): seq<Bucket> { MapSeq(BucketAt(samples), SortedKeys(samples)) }

  lemma {:induction false} BucketKeysAreExact(samples: seq<Sample>)
    ensures Distinct(BucketKeys(samples))
    ensures forall k :: k in BucketKeys(samples) <==> Select(samples, BucketKey, k) != []
  {
    if samples != [] {
      BucketKeysAreExact(samples[..|samples| - 1]);
    }
  }

  lemma {:induction false} SortedKeysAreExact(samples: seq<Sample>)
    ensures Distinct(SortedKeys(samples)) && SortedBy(IntLe, SortedKeys(samples))
    ensures forall k :: k in SortedKeys(samples) <==> Select(samples, BucketKey, k) != []
  {
    BucketKeysAreExact(samples);
    SortKeepsElements(IntLe, BucketKeys(samples));
    SortDistinct(IntLe, BucketKeys(samples));
    SortIsSorted(IntLe, BucketKeys(samples));
  }

  method CollectBuckets(samples: seq<Sample>) returns (buckets: map<int, seq<Sample>>, keys: seq<int>)
    ensures GroupsOf(buckets, samples, BucketKey) && keys == BucketKeys(samples)
  {
    buckets, keys := map[], [];
    for i := 0 to |samples|
      invariant GroupsOf(buckets, samples[..i], BucketKey) && keys == BucketKeys(samples[..i])
    {
      var k := BucketKey(samples[i]);
      PushKeepsGroups(buckets, samples[..i], BucketKey, samples[i]);
      BucketKeysAreExact(samples[..i]);
      KeyIsKnown(buckets, samples[..i], k);
      assert samples[..i + 1] == samples[..i] + [samples[i]] && samples[..i + 1][..i] == samples[..i];
      buckets, keys := Push(buckets, k, samples[i]), PushKey(buckets, keys, k);
    }
    assert samples[..|samples|] == samples;
  }

  method BucketMedians(samples: seq<Sample>) returns (out: seq<Bucket>)
    ensures out == Buckets(samples)
  {
    var buckets, keys := CollectBuckets(samples);
    var sorted := Sort(IntLe, keys);
    SortedKeysAreExact(samples);
    out := [];
    for i := 0 to |sorted|
      invariant |out| == i && forall j :: 0 <= j < i ==> out[j] == BucketAt(samples)(sorted[j])
    {
      var k := sorted[i];
      assert k in sorted;
      BucketContent(buckets, samples, k);
      var median := TakeMedian(Values(buckets[k]));
      out := out + [Bucket(k * BUCKET_SECONDS, median)];
    }
  }

  /** The group of a key holds what belongs into its bucket. */
  lemma {:induction false} BucketContent(buckets: map<int, seq<Sample>>, samples: seq<Sample>, k: int)
    requires GroupsOf(buckets, samples, BucketKey) && Select(samples, BucketKey, k) != []
    ensures k in buckets && Values(buckets[k]) != []
    ensures BucketAt(samples)(k) == Bucket(k * BUCKET_SECONDS, MedianOf(Values(buckets[k])))
  {
    KeyIsKnown(buckets, samples, k);
    assert GroupOk(buckets, samples, BucketKey, k);
  }

  lemma {:induction false} KeyIsKnown(buckets: map<int, seq<Sample>>, samples: seq<Sample>, k: int)
    requires GroupsOf(buckets, samples, BucketKey)
    ensures k in buckets <==> Select(samples, BucketKey, k) != []
  {
    if k in buckets {
      assert GroupOk(buckets, samples, BucketKey, k);
    } else {
      NothingToSelect(buckets, samples, BucketKey, k);
    }
  }

  /** Every sample falls into exactly one bucket: the one that starts at or before it, less than an hour away. */
  lemma BucketOfSample(samples: seq<Sample>, s: Sample)
    requires s in samples
    ensures exists i :: 0 <= i < |Buckets(samples)|
                     && Buckets(samples)[i].time <= s.timestamp < Buckets(samples)[i].time + 3600
  {
    var k := BucketKey(s);
    SelectMembers(samples, BucketKey, k);
    SortedKeysAreExact(samples);
    assert s in Select(samples, BucketKey, k);
    assert k in SortedKeys(samples);
    var i :| 0 <= i < |SortedKeys(samples)| && SortedKeys(samples)[i] == k;
    assert Buckets(samples)[i] == BucketAt(samples)(k);
  }

  /** The times strictly increase, by whole hours. */
  lemma BucketTimesIncrease(samples: seq<Sample>)
    ensures var b := Buckets(samples);
            && (forall i, j :: 0 <= i < j < |b| ==> b[i].time + 3600 <= b[j].time)
            && forall i :: 0 <= i < |b| ==> b[i].time % 3600 == 0
  {
    SortedKeysAreExact(samples);
    var sorted, b := SortedKeys(samples), Buckets(samples);
    forall i, j | 0 <= i < j < |b| ensures b[i].time + BUCKET_SECONDS <= b[j].time {
      assert IntLe(sorted[i], sorted[j]) && sorted[i] != sorted[j];
    }
  }

  lemma {:induction false} ContentIsBetween(samples: seq<Sample>, k: int, lo: real, hi: real)
    requires Select(samples, BucketKey, k) != []
    requires forall s :: s in samples && BucketKey(s) == k ==> lo <= s.value <= hi
    ensures lo <= MedianOr(Content(samples, k)) <= hi
  {
    SelectMembers(samples, BucketKey, k);
    var chosen := Select(samples, BucketKey, k);
    forall v | v in Content(samples, k) ensures lo <= v <= hi {
      var j :| 0 <= j < |chosen| && Values(chosen)[j] == v;
      assert chosen[j] in chosen && v == ValueOf(chosen[j]);
    }
    MedianIsBetween(Content(samples, k), lo, hi);
  }

  /** A bucket's value lies between the least and the greatest value it collects. */
  lemma BucketValueIsBetween(samples: seq<Sample>, i: nat, lo: real, hi: real)
    requires i < |Buckets(samples)|
    requires var t := Buckets(samples)[i].time;
             forall s :: s in samples && t <= s.timestamp < t + 3600 ==> lo <= s.value <= hi
    ensures lo <= Buckets(samples)[i].value <= hi
  {
    var k := SortedKeys(samples)[i];
    SortedKeysAreExact(samples);
    assert k in SortedKeys(samples);
    ContentIsBetween(samples, k, lo, hi);
  }

  // ------------------------------------------------------------ theil_sen_slope

  function SlopeReader(p: Point): Point -> Option<real> {
    (q: Point) => if q.x - p.x > 0.0 then Some((q.y - p.y) / (q.x - p.x)) else None
  }

  /** All slopes between a point and a later one further right. */
  function Slopes(points: seq<Point>): seq<real> {
    if points == [] then [] else Collect(SlopeReader(points[0]), points[1..]) + Slopes(points[1..])
  }

  function MiddleSlope(slopes: seq<real>): Option<real> { if slopes == [] then None else Some(MedianOf(slopes)) }

  function Slope(points: seq<Point>): Option<real> { MiddleSlope(Slopes(points)) }

  /** The inner loop. */
  method SlopesFrom(p: Point, rest: seq<Point>) returns (slopes: seq<real>)
    ensures slopes == Collect(SlopeReader(p), rest)
  {
    slopes := [];
    for j := 0 to |rest|
      invariant slopes == Collect(SlopeReader(p), rest[..j])
    {
      CollectNext(SlopeReader(p), rest, j);
      var dx := rest[j].x - p.x;
      if dx > 0.0 {
        slopes := slopes + [(rest[j].y - p.y) / dx];
      }
    }
    assert rest[..|rest|] == rest;
  }

  method CollectSlopes(points: seq<Point>) returns (slopes: seq<real>)
    requires points != []
    ensures slopes == Slopes(points)
  {
    var n := |points|;
    slopes := [];
    assert points[0..] == points;
    for i := 0 to n - 1
      invariant slopes + Slopes(points[i..]) == Slopes(points)
    {
      assert points[i..][0] == points[i] && points[i..][1..] == points[i + 1..];
      var more := SlopesFrom(points[i], points[i + 1..]);
      assert slopes + Slopes(points[i..]) == slopes + more + Slopes(points[i + 1..]);
      slopes := slopes + more;
    }
    assert points[n - 1..][1..] == [];
  }

  method TheilSenSlope(points: seq<Point>) returns (slope: Option<real>)
    ensures slope == Slope(points)
  {
    if |points| < 2 {
      assert |points| == 1 ==> points[1..] == [];
      return None;
    }
    var slopes := CollectSlopes(points);
    if slopes == [] {
      return None;
    }
    var median := TakeMedian(slopes);
    slope := Some(median);
  }

  function OnLine(m: real, c: real): Point -> bool { (p: Point) => p.y == m * p.x + c }

  /** Points on one line have the slope of the line. */
  lemma CollinearIsExact(points: seq<Point>, m: real, c: real)
    requires forall p :: p in points ==> OnLine(m, c)(p)
    requires Slope(points).Some?
    ensures Slope(points) == Some(m)
  {
    var on := OnLine(m, c);
    forall p, q | on(p) && on(q) ensures SlopeIs(m, p, q) {
      SlopeOnLine(p, q, m, c);
    }
    forall s | s in Slopes(points) ensures s == m {
      SlopesAreSame(points, on, m, s);
    }
    MedianIsBetween(Slopes(points), m, m);
  }

  predicate SlopeIs(m: real, p: Point, q: Point) { SlopeReader(p)(q).Some? ==> SlopeReader(p)(q).value == m }

  lemma SlopeOnLine(p: Point, q: Point, m: real, c: real)
    requires OnLine(m, c)(p) && OnLine(m, c)(q)
    ensures SlopeIs(m, p, q)
  {
    var d := q.x - p.x;
    assert q.y - p.y == m * d;
    if d != 0.0 {
      Quotient(q.y - p.y, d, m);
    }
  }

  lemma {:induction false} SlopesAreSame(points: seq<Point>, on: Point -> bool, m: real, s: real)
    requires (forall p :: p in points ==> on(p)) && s in Slopes(points)
    requires forall p, q :: on(p) && on(q) ==> SlopeIs(m, p, q)
    ensures s == m
  {
    var p, rest := points[0], points[1..];
    if s in Collect(SlopeReader(p), rest) {
      CollectMember(SlopeReader(p), rest, s);
      var i :| 0 <= i < |rest| && SlopeReader(p)(rest[i]) == Some(s);
      assert rest[i] in points && SlopeIs(m, p, rest[i]);
    } else {
      SlopesAreSame(rest, on, m, s);
    }
  }

  lemma Quotient(n: real, d: real, q: real)
    requires d != 0.0 && n == q * d
    ensures n / d == q
  {
  }

  // ------------------------------------------------- the slopes are those of all pairs

  /** Two points, the later one further right. */
  predicate IsPair(points: seq<Point>, i: int, j: int) { 0 <= i < j < |points| && points[i].x < points[j].x }

  function Rate(points: seq<Point>, i: int, j: int): real requires IsPair(points, i, j) {
    (points[j].y - points[i].y) / (points[j].x - points[i].x)
  }

  /** The pairs whose first point is `lo` or later and whose slope meets `p`. */
  ghost function PairsFrom(points: seq<Point>, p: real -> bool, lo: int): set<(int, int)> {
    set i, j | 0 <= i < |points| && 0 <= j < |points| && lo <= i && IsPair(points, i, j) && p(Rate(points, i, j))
      :: (i, j)
  }

  lemma {:induction false} CountConcat(p: real -> bool, a: seq<real>, b: seq<real>)
    ensures Count(p, a + b) == Count(p, a) + Count(p, b)
  {
    if a == [] {
      assert a + b == b;
    } else {
      assert (a + b)[1..] == a[1..] + b;
      CountConcat(p, a[1..], b);
    }
  }

  /** The places `j` with `i < j < hi` at which `r` has a value that meets `p`. */
  ghost function RowOf(r: int -> Option<real>, p: real -> bool, i: int, hi: int): set<(int, int)> {
    set j | i < j < hi && r(j).Some? && p(r(j).value) :: (i, j)
  }

  lemma {:induction false} CountOfRow<T>(f: T -> Option<real>, rest: seq<T>, r: int -> Option<real>, p: real -> bool,
                                         i: nat, n: nat)
    requires n <= |rest| && forall k :: 0 <= k < n ==> f(rest[k]) == r(i + 1 + k)
    ensures Count(p, Collect(f, rest[..n])) == |RowOf(r, p, i, i + 1 + n)|
  {
    if n == 0 {
      assert RowOf(r, p, i, i + 1) == {};
    } else {
      CountOfRow(f, rest, r, p, i, n - 1);
      CollectNext(f, rest, n - 1);
      CountConcat(p, Collect(f, rest[..n - 1]), Maybe(f(rest[n - 1])));
      RowNext(r, p, i, i + n);
      assert f(rest[n - 1]) == r(i + n);
    }
  }

  lemma RowNext(r: int -> Option<real>, p: real -> bool, i: int, hi: int)
    requires i < hi
    ensures |RowOf(r, p, i, hi + 1)| == |RowOf(r, p, i, hi)| + Count(p, Maybe(r(hi)))
  {
    var before := RowOf(r, p, i, hi);
    assert RowOf(r, p, i, hi + 1) == if r(hi).Some? && p(r(hi).value) then before + {(i, hi)} else before;
  }

  function RateOf(points: seq<Point>, i: int): int -> Option<real> {
    (j: int) => if IsPair(points, i, j) then Some(Rate(points, i, j)) else None
  }

  lemma RowIsRead(points: seq<Point>, i: nat, k: nat)
    requires i + 1 + k < |points|
    ensures SlopeReader(points[i])(points[i + 1..][k]) == RateOf(points, i)(i + 1 + k)
  {
  }

  lemma PairsSplit(points: seq<Point>, p: real -> bool, i: nat)
    requires i < |points|
    ensures |PairsFrom(points, p, i)| == |RowOf(RateOf(points, i), p, i, |points|)| + |PairsFrom(points, p, i + 1)|
  {
    var row, later := RowOf(RateOf(points, i), p, i, |points|), PairsFrom(points, p, i + 1);
    assert PairsFrom(points, p, i) == row + later;
    assert row !! later;
  }

  lemma {:induction false} CountFrom(points: seq<Point>, p: real -> bool, i: nat)
    requires i <= |points|
    ensures Count(p, Slopes(points[i..])) == |PairsFrom(points, p, i)|
    decreases |points| - i
  {
    if i == |points| {
      assert PairsFrom(points, p, i) == {};
    } else {
      var rest := points[i + 1..];
      assert points[i..][1..] == rest && points[i..][0] == points[i] && rest[..|rest|] == rest;
      CountFrom(points, p, i + 1);
      forall k | 0 <= k < |rest| ensures SlopeReader(points[i])(rest[k]) == RateOf(points, i)(i + 1 + k) {
        RowIsRead(points, i, k);
      }
      CountOfRow(SlopeReader(points[i]), rest, RateOf(points, i), p, i, |rest|);
      CountConcat(p, Collect(SlopeReader(points[i]), rest), Slopes(rest));
      PairsSplit(points, p, i);
    }
  }

  ghost function Pairs(points: seq<Point>): set<(int, int)> { PairsFrom(points, AnySlope(), 0) }

  function AnySlope(): real -> bool { s => true }

  /** The slopes whose median is taken are one for every pair of points of which the later lies further
      right: whatever is asked of a slope, as many slopes meet it as pairs do. */
  lemma {:induction false} SlopesArePairs(points: seq<Point>, p: real -> bool)
    ensures Count(p, Slopes(points)) == |PairsFrom(points, p, 0)|
    ensures |Slopes(points)| == |Pairs(points)|
    ensures Slope(points).None? <==> forall i, j :: !IsPair(points, i, j)
  {
    assert points[0..] == points;
    CountFrom(points, p, 0);
    CountFrom(points, AnySlope(), 0);
    CountAll(AnySlope(), Slopes(points));
    if i, j :| IsPair(points, i, j) {
      assert (i, j) in Pairs(points);
    }
    if pair :| pair in Pairs(points) {
      assert IsPair(points, pair.0, pair.1);
    } else {
      assert Pairs(points) == {};
    }
  }

  /** The slope lies in every interval that holds the slopes of more than half of the pairs. */
  lemma SlopeFollowsMajority(points: seq<Point>, lo: real, hi: real)
    requires 2 * |PairsFrom(points, Sorting.Inside(lo, hi), 0)| > |Pairs(points)|
    ensures Slope(points).Some? && lo <= Slope(points).value <= hi
  {
    SlopesArePairs(points, Sorting.Inside(lo, hi));
    MedianFollowsMajority(Slopes(points), lo, hi);
  }

  /** Another unit and another line underneath: `y` becomes `a * y + b * x + c`. */
  function Redrawn(a: real, b: real, c: real): Point -> Point {
    (p: Point) => Point(p.x, a * p.y + b * p.x + c)
  }

  function Reslope(a: real, b: real): real -> real { (s: real) => a * s + b }

  lemma Rise(a: real, b: real, dx: real, dy: real, s: real)
    requires s * dx == dy
    ensures a * dy + b * dx == (a * s + b) * dx
  {
    assert a * (s * dx) == (a * s) * dx;
    assert (a * s) * dx + b * dx == (a * s + b) * dx;
  }

  lemma SlopeOfRedrawn(a: real, b: real, c: real, p: Point, q: Point)
    ensures SlopeReader(Redrawn(a, b, c)(p))(Redrawn(a, b, c)(q))
         == MapOption(Reslope(a, b), SlopeReader(p)(q))
  {
    var dx, dy := q.x - p.x, q.y - p.y;
    var p', q' := Redrawn(a, b, c)(p), Redrawn(a, b, c)(q);
    assert q'.x - p'.x == dx;
    if dx > 0.0 {
      var s := dy / dx;
      Rise(a, b, dx, dy, s);
      assert a * q.y - a * p.y == a * dy && b * q.x - b * p.x == b * dx;
      assert q'.y - p'.y == a * dy + b * dx;
      Quotient(q'.y - p'.y, q'.x - p'.x, a * s + b);
      assert SlopeReader(p)(q) == Some(s) && SlopeReader(p')(q') == Some(a * s + b);
      assert Reslope(a, b)(s) == a * s + b;
    }
  }

  lemma {:induction false} CollectRedrawn(a: real, b: real, c: real, p: Point, rest: seq<Point>)
    ensures Collect(SlopeReader(Redrawn(a, b, c)(p)), MapSeq(Redrawn(a, b, c), rest))
         == MapSeq(Reslope(a, b), Collect(SlopeReader(p), rest))
  {
    if rest != [] {
      var n := |rest| - 1;
      assert MapSeq(Redrawn(a, b, c), rest)[..n] == MapSeq(Redrawn(a, b, c), rest[..n]);
      CollectRedrawn(a, b, c, p, rest[..n]);
      SlopeOfRedrawn(a, b, c, p, rest[n]);
    }
  }

  lemma {:induction false} SlopesOfRedrawn(a: real, b: real, c: real, points: seq<Point>)
    ensures Slopes(MapSeq(Redrawn(a, b, c), points)) == MapSeq(Reslope(a, b), Slopes(points))
  {
    if points != [] {
      assert MapSeq(Redrawn(a, b, c), points)[1..] == MapSeq(Redrawn(a, b, c), points[1..]);
      CollectRedrawn(a, b, c, points[0], points[1..]);
      SlopesOfRedrawn(a, b, c, points[1..]);
    }
  }

  /** The slope follows a change of unit and of the line underneath. */
  lemma SlopeIsEquivariant(a: real, b: real, c: real, points: seq<Point>)
    requires a > 0.0
    ensures Slope(MapSeq(Redrawn(a, b, c), points))
         == MapOption(Reslope(a, b), Slope(points))
  {
    SlopesOfRedrawn(a, b, c, points);
    MiddleOfReslope(Slopes(points), a, b);
  }

  lemma MiddleOfReslope(slopes: seq<real>, a: real, b: real)
    requires a > 0.0
    ensures MiddleSlope(MapSeq(Reslope(a, b), slopes))
         == MapOption(Reslope(a, b), MiddleSlope(slopes))
  {
    if slopes != [] {
      forall x ensures IsAffine(Reslope(a, b), a, b, x) {}
      MedianIsAffine(slopes, Reslope(a, b), a, b);
    }
  }

  // ------------------------------------------------------------- forecast_detail

  const PRIMARY_DAYS := 7
  const FALLBACK_DAYS := 30
  const MIN_SAMPLES := 8
  const MIN_BUCKETS := 6
  const MAX_DAYS := 3650.0

  datatype Row = Row(timestamp: int, alloc: real, size: real)

  datatype Reason = NoData | Full | NoGrowth | TooFar | Projected

  datatype Forecast = Forecast(days: Option<real>, perDay: Option<real>, window: int, reason: Reason)

  function SampleOf(r: Row): Sample { Sample(r.timestamp, r.alloc) }

  function BucketsOf(rows: seq<Row>): seq<Bucket> { Buckets(MapSeq(SampleOf, rows)) }

  /** Hours since the first bucket. */
  function HoursSince(t0: int): Bucket -> Point { (b: Bucket) => Point((b.time - t0) as real / 3600.0, b.value) }

  predicate IsThin(rows: seq<Row>) { |rows| < MIN_SAMPLES || |BucketsOf(rows)| < MIN_BUCKETS }

  function TrendOf(rows: seq<Row>): Option<real> {
    if |rows| < MIN_SAMPLES || |BucketsOf(rows)| < 2 then None
    else Slope(MapSeq(HoursSince(BucketsOf(rows)[0].time), BucketsOf(rows)))
  }

  /** The slope is in bytes per hour. */
  function DaysLeft(last: Row, slope: real): real
    requires slope != 0.0
  {
    ((last.size - last.alloc) / slope) / 24.0
  }

  function Judge(last: Row, slope: real, window: int): Forecast {
    var perDay := Some(slope * 24.0);
    if last.alloc >= last.size then Forecast(Some(0.0), perDay, window, Full)
    else if slope <= 0.0 then Forecast(None, perDay, window, NoGrowth)
    else
      var days := DaysLeft(last, slope);
      if days <= 0.0 then Forecast(Some(0.0), perDay, window, Full)
      else if days > MAX_DAYS then Forecast(None, perDay, window, TooFar)
      else Forecast(Some(days), perDay, window, Projected)
  }

  function ForecastBy(trend: Option<real>, rows: seq<Row>, window: int): Forecast
    requires trend.Some? ==> rows != []
  {
    if trend.None? then Forecast(None, None, window, NoData) else Judge(rows[|rows| - 1], trend.value, window)
  }

  function ForecastFrom(rows: seq<Row>, window: int): Forecast { ForecastBy(TrendOf(rows), rows, window) }

  /** `forecast_detail`, given the rows of the two windows; the days are not rounded. */
  function ForecastDetail(primary: seq<Row>, fallback: seq<Row>): Forecast {
    if IsThin(primary) then ForecastFrom(fallback, FALLBACK_DAYS) else ForecastFrom(primary, PRIMARY_DAYS)
  }

  /** A projection is the day on which the line through the last sample reaches the size. */
  lemma ProjectionReachesSize(last: Row, slope: real, window: int)
    ensures var f := Judge(last, slope, window);
            && (f.reason.Full? <==> last.alloc >= last.size)
            && (f.reason.NoGrowth? <==> last.alloc < last.size && slope <= 0.0)
            && (f.reason.Projected? || f.reason.TooFar? <==> last.alloc < last.size && slope > 0.0)
            && (f.reason.Projected? ==>
                  0.0 < f.days.value <= 3650.0 && last.alloc + f.perDay.value * f.days.value == last.size)
            && (f.reason.TooFar? ==> last.alloc + f.perDay.value * 3650.0 < last.size)
            && f.perDay == Some(slope * 24.0) && f.window == window
  {
    if last.alloc < last.size && slope > 0.0 {
      var left := last.size - last.alloc;
      var hours := left / slope;
      assert hours * slope == left;
      PositiveQuotient(left, slope);
      var perDay, days := slope * 24.0, hours / 24.0;
      assert perDay * days == slope * (24.0 * days) == slope * hours;
      if days > 3650.0 {
        MoreThan(perDay, 3650.0, days);
      }
    }
  }

  lemma MoreThan(a: real, x: real, y: real)
    requires a > 0.0 && x < y
    ensures a * x < a * y
  {
    var d := y - x;
    Grows(a, d);
    assert a * (x + d) == a * x + a * d;
  }

  lemma Grows(a: real, d: real)
    requires a > 0.0 && d > 0.0
    ensures a * d > 0.0
  {
  }

  /** The hours in which there are rows. */
  function Hours(rows: seq<Row>): set<int> { set r | r in rows :: r.timestamp / 3600 }

  lemma {:induction false} DistinctSize(s: seq<int>, members: set<int>)
    requires Distinct(s) && forall k :: k in s <==> k in members
    ensures |s| == |members|
  {
    if s == [] {
      assert forall k :: k in members ==> k in s;
      assert members == {};
    } else {
      var n := |s| - 1;
      assert s == s[..n] + [s[n]];
      forall k ensures k in s[..n] <==> k in members - {s[n]} {
        if k in s[..n] {
          var i :| 0 <= i < n && s[..n][i] == k;
          assert s[i] != s[n] && s[i] in s;
        }
      }
      DistinctSize(s[..n], members - {s[n]});
    }
  }

  lemma BucketsAreHours(rows: seq<Row>)
    ensures |BucketsOf(rows)| == |Hours(rows)|
  {
    var samples := MapSeq(SampleOf, rows);
    SortedKeysAreExact(samples);
    forall k ensures k in SortedKeys(samples) <==> k in Hours(rows) {
      SelectMembers(samples, BucketKey, k);
      if k in SortedKeys(samples) {
        var s := Select(samples, BucketKey, k)[0];
        assert s in Select(samples, BucketKey, k);
        var i :| 0 <= i < |samples| && samples[i] == s;
        assert rows[i] in rows && s == SampleOf(rows[i]);
      }
      if r :| r in rows && r.timestamp / 3600 == k {
        var i :| 0 <= i < |rows| && rows[i] == r;
        assert samples[i] == SampleOf(r) && samples[i] in samples;
        assert samples[i] in Select(samples, BucketKey, k);
      }
    }
    DistinctSize(SortedKeys(samples), Hours(rows));
  }

  /** There is a trend exactly from eight rows in at least two hours on. */
  lemma TrendIff(rows: seq<Row>)
    ensures TrendOf(rows).Some? <==> |rows| >= 8 && |Hours(rows)| >= 2
  {
    BucketsAreHours(rows);
    var b := BucketsOf(rows);
    if |rows| >= 8 && |b| >= 2 {
      BucketTimesIncrease(MapSeq(SampleOf, rows));
      var points := MapSeq(HoursSince(b[0].time), b);
      assert points[0] == HoursSince(b[0].time)(b[0]) && points[1] == HoursSince(b[0].time)(b[1]);
      SlopesArePairs(points, AnySlope());
      assert IsPair(points, 0, 1);
    }
  }

  /** The last seven days are used when they have eight rows in at least six hours, otherwise the last thirty;
      there is no data exactly when the rows used are fewer than eight or all in one hour. */
  lemma WindowIff(primary: seq<Row>, fallback: seq<Row>)
    ensures var enough := |primary| >= 8 && |Hours(primary)| >= 6;
            var f, rows := ForecastDetail(primary, fallback), if enough then primary else fallback;
            && f.window == (if enough then 7 else 30)
            && (f.reason.NoData? <==> |rows| < 8 || |Hours(rows)| < 2)
  {
    BucketsAreHours(primary);
    DataIff(primary, PRIMARY_DAYS);
    DataIff(fallback, FALLBACK_DAYS);
  }

  lemma DataIff(rows: seq<Row>, window: int)
    ensures ForecastFrom(rows, window).reason.NoData? <==> |rows| < 8 || |Hours(rows)| < 2
    ensures ForecastFrom(rows, window).window == window
  {
    TrendIff(rows);
  }

  /** The row lies on the hour and on the line that starts at `c` and grows by `rate` an hour. */
  predicate IsSteady(r: Row, rate: real, c: real) {
    r.timestamp % 3600 == 0 && r.alloc == rate * (r.timestamp / 3600) as real + c
  }

  lemma SteadyBucket(rows: seq<Row>, rate: real, c: real, i: nat)
    requires i < |BucketsOf(rows)| && forall r :: r in rows ==> IsSteady(r, rate, c)
    ensures var b := BucketsOf(rows)[i]; b.value == rate * (b.time / 3600) as real + c
  {
    var samples, t := MapSeq(SampleOf, rows), BucketsOf(rows)[i].time;
    var v := rate * (t / 3600) as real + c;
    BucketTimesIncrease(samples);
    forall s | s in samples && t <= s.timestamp < t + 3600 ensures s.value == v {
      var j :| 0 <= j < |samples| && samples[j] == s;
      assert rows[j] in rows && s == SampleOf(rows[j]);
      assert s.timestamp / 3600 == t / 3600;
    }
    BucketValueIsBetween(samples, i, v, v);
  }

  /** A pool that grows steadily is judged by exactly its own rate, in whatever order and however often the
      hours were sampled. */
  lemma SteadyGrowthIsForecast(rows: seq<Row>, rate: real, c: real, window: int)
    requires |rows| >= 8 && |Hours(rows)| >= 2 && forall r :: r in rows ==> IsSteady(r, rate, c)
    ensures ForecastFrom(rows, window) == Judge(rows[|rows| - 1], rate, window)
  {
    SteadyTrend(rows, rate, c);
  }

  lemma SteadyTrend(rows: seq<Row>, rate: real, c: real)
    requires |rows| >= 8 && |Hours(rows)| >= 2 && forall r :: r in rows ==> IsSteady(r, rate, c)
    ensures TrendOf(rows) == Some(rate)
  {
    TrendIff(rows);
    var points := MapSeq(HoursSince(BucketsOf(rows)[0].time), BucketsOf(rows));
    var start := SteadyPoints(rows, rate, c, points);
    CollinearIsExact(points, rate, start);
  }

  lemma SteadyPoints(rows: seq<Row>, rate: real, c: real, points: seq<Point>) returns (start: real)
    requires BucketsOf(rows) != [] && points == MapSeq(HoursSince(BucketsOf(rows)[0].time), BucketsOf(rows))
    requires forall r :: r in rows ==> IsSteady(r, rate, c)
    ensures forall p :: p in points ==> OnLine(rate, start)(p)
  {
    start := rate * (BucketsOf(rows)[0].time / 3600) as real + c;
    forall p | p in points ensures OnLine(rate, start)(p) {
      var i :| 0 <= i < |points| && points[i] == p;
      SteadyPoint(rows, rate, c, i);
    }
  }

  lemma SteadyPoint(rows: seq<Row>, rate: real, c: real, i: nat)
    requires i < |BucketsOf(rows)| && forall r :: r in rows ==> IsSteady(r, rate, c)
    ensures var t0 := BucketsOf(rows)[0].time;
            OnLine(rate, rate * (t0 / 3600) as real + c)(HoursSince(t0)(BucketsOf(rows)[i]))
  {
    var b := BucketsOf(rows);
    BucketTimesIncrease(MapSeq(SampleOf, rows));
    SteadyBucket(rows, rate, c, i);
    HoursApart(b[i].time, b[0].time, rate);
  }

  lemma HoursApart(t: int, t0: int, rate: real)
    requires t % 3600 == 0 && t0 % 3600 == 0
    ensures (t - t0) as real / 3600.0 == (t / 3600) as real - (t0 / 3600) as real
    ensures rate * ((t / 3600) as real - (t0 / 3600) as real) ==
            rate * (t / 3600) as real - rate * (t0 / 3600) as real
  {
    assert (t - t0) as real == 3600.0 * ((t / 3600) as real - (t0 / 3600) as real);
  }

  lemma PositiveQuotient(n: real, d: real)
    requires n > 0.0 && d > 0.0
    ensures n / d > 0.0
  {
  }

  function Scaled(a: real): Row -> Row { (r: Row) => Row(r.timestamp, a * r.alloc, a * r.size) }

  function ScaledSample(a: real): Sample -> Sample { (s: Sample) => Sample(s.timestamp, a * s.value) }

  function ScaledBucket(a: real): Bucket -> Bucket { (b: Bucket) => Bucket(b.time, a * b.value) }

  lemma {:induction false} SelectScaled(samples: seq<Sample>, a: real, k: int)
    ensures Select(MapSeq(ScaledSample(a), samples), BucketKey, k) ==
            MapSeq(ScaledSample(a), Select(samples, BucketKey, k))
  {
    if samples != [] {
      var n := |samples| - 1;
      assert MapSeq(ScaledSample(a), samples)[..n] == MapSeq(ScaledSample(a), samples[..n]);
      SelectScaled(samples[..n], a, k);
    }
  }

  lemma {:induction false} KeysScaled(samples: seq<Sample>, a: real)
    ensures BucketKeys(MapSeq(ScaledSample(a), samples)) == BucketKeys(samples)
  {
    if samples != [] {
      var n := |samples| - 1;
      assert MapSeq(ScaledSample(a), samples)[..n] == MapSeq(ScaledSample(a), samples[..n]);
      KeysScaled(samples[..n], a);
    }
  }

  lemma ValuesScaled(samples: seq<Sample>, a: real)
    ensures Values(MapSeq(ScaledSample(a), samples)) == MapSeq(Reslope(a, 0.0), Values(samples))
  {
    forall i | 0 <= i < |samples|
      ensures Values(MapSeq(ScaledSample(a), samples))[i] == Reslope(a, 0.0)(Values(samples)[i]) {
      var s := ScaledSample(a)(samples[i]);
      assert MapSeq(ScaledSample(a), samples)[i] == s && ValueOf(s) == a * ValueOf(samples[i]) + 0.0;
    }
  }

  lemma ContentScaled(samples: seq<Sample>, a: real, k: int)
    ensures Content(MapSeq(ScaledSample(a), samples), k) == MapSeq(Reslope(a, 0.0), Content(samples, k))
  {
    SelectScaled(samples, a, k);
    ValuesScaled(Select(samples, BucketKey, k), a);
  }

  lemma MedianOfImage(values: seq<real>, f: real -> real, a: real)
    requires a > 0.0 && f(0.0) == 0.0 && forall x :: IsAffine(f, a, 0.0, x)
    ensures MedianOr(MapSeq(f, values)) == f(MedianOr(values))
  {
    if values != [] {
      MedianIsAffine(values, f, a, 0.0);
    }
  }

  lemma MedianScaled(values: seq<real>, a: real)
    requires a > 0.0
    ensures MedianOr(MapSeq(Reslope(a, 0.0), values)) == Reslope(a, 0.0)(MedianOr(values))
  {
    var f := Reslope(a, 0.0);
    forall x ensures IsAffine(f, a, 0.0, x) {}
    MedianOfImage(values, f, a);
  }

  lemma RescaledBucket(time: int, value: real, a: real)
    ensures ScaledBucket(a)(Bucket(time, value)) == Bucket(time, Reslope(a, 0.0)(value))
  {
  }

  lemma BucketScaled(samples: seq<Sample>, a: real, k: int)
    requires a > 0.0
    ensures BucketAt(MapSeq(ScaledSample(a), samples))(k) == ScaledBucket(a)(BucketAt(samples)(k))
  {
    ContentScaled(samples, a, k);
    MedianScaled(Content(samples, k), a);
    RescaledBucket(k * BUCKET_SECONDS, MedianOr(Content(samples, k)), a);
  }

  lemma SamplesScaled(rows: seq<Row>, a: real)
    ensures MapSeq(SampleOf, MapSeq(Scaled(a), rows)) == MapSeq(ScaledSample(a), MapSeq(SampleOf, rows))
  {
    forall i | 0 <= i < |rows|
      ensures MapSeq(SampleOf, MapSeq(Scaled(a), rows))[i] == MapSeq(ScaledSample(a), MapSeq(SampleOf, rows))[i]
    {
      var r := Scaled(a)(rows[i]);
      assert MapSeq(Scaled(a), rows)[i] == r && SampleOf(r) == ScaledSample(a)(SampleOf(rows[i]));
    }
  }

  lemma BucketsScaled(rows: seq<Row>, a: real)
    requires a > 0.0
    ensures BucketsOf(MapSeq(Scaled(a), rows)) == MapSeq(ScaledBucket(a), BucketsOf(rows))
  {
    var samples := MapSeq(SampleOf, rows);
    SamplesScaled(rows, a);
    KeysScaled(samples, a);
    var keys := SortedKeys(samples);
    forall i | 0 <= i < |keys|
      ensures BucketsOf(MapSeq(Scaled(a), rows))[i] == MapSeq(ScaledBucket(a), BucketsOf(rows))[i]
    {
      BucketScaled(samples, a, keys[i]);
    }
  }

  lemma PointsScaled(b: seq<Bucket>, t0: int, a: real)
    ensures MapSeq(HoursSince(t0), MapSeq(ScaledBucket(a), b)) ==
            MapSeq(Redrawn(a, 0.0, 0.0), MapSeq(HoursSince(t0), b))
  {
    forall i | 0 <= i < |b|
      ensures MapSeq(HoursSince(t0), MapSeq(ScaledBucket(a), b))[i] ==
              MapSeq(Redrawn(a, 0.0, 0.0), MapSeq(HoursSince(t0), b))[i]
    {
    }
  }

  lemma TrendScaled(rows: seq<Row>, a: real)
    requires a > 0.0
    ensures |BucketsOf(MapSeq(Scaled(a), rows))| == |BucketsOf(rows)|
    ensures TrendOf(MapSeq(Scaled(a), rows)) == MapOption(Reslope(a, 0.0), TrendOf(rows))
  {
    BucketsScaled(rows, a);
    if |rows| >= MIN_SAMPLES && |BucketsOf(rows)| >= 2 {
      var b := BucketsOf(rows);
      PointsScaled(b, b[0].time, a);
      SlopeIsEquivariant(a, 0.0, 0.0, MapSeq(HoursSince(b[0].time), b));
    }
  }

  lemma DaysScaled(last: Row, slope: real, a: real)
    requires a > 0.0 && slope > 0.0
    ensures a * slope > 0.0 && DaysLeft(Scaled(a)(last), a * slope) == DaysLeft(last, slope)
  {
    var l, left := Scaled(a)(last), last.size - last.alloc;
    var q := left / slope;
    assert q * slope == left;
    assert l.size - l.alloc == a * left;
    assert a * (q * slope) == q * (a * slope);
    Quotient(l.size - l.alloc, a * slope, q);
  }

  ghost predicate SameOutlook(f: Forecast, g: Forecast, a: real) {
    g.days == f.days && g.reason == f.reason && g.window == f.window && g.perDay == MapOption(Reslope(a, 0.0), f.perDay)
  }

  lemma JudgeScaled(last: Row, scaled: Row, slope: real, steeper: real, window: int, a: real)
    requires a > 0.0 && steeper == a * slope && scaled == Scaled(a)(last)
    ensures SameOutlook(Judge(last, slope, window), Judge(scaled, steeper, window), a)
  {
    MulKeepsOrder(a, last.size, last.alloc);
    MulKeepsOrder(a, slope, 0.0);
    assert a * 0.0 == 0.0;
    assert steeper * 24.0 == a * (slope * 24.0) == Reslope(a, 0.0)(slope * 24.0);
    if slope > 0.0 {
      DaysScaled(last, slope, a);
    }
  }

  lemma ForecastByScaled(trend: Option<real>, rows: seq<Row>, window: int, a: real)
    requires a > 0.0 && (trend.Some? ==> rows != [])
    ensures SameOutlook(ForecastBy(trend, rows, window),
                        ForecastBy(MapOption(Reslope(a, 0.0), trend), MapSeq(Scaled(a), rows), window), a)
  {
    if trend.Some? {
      var n := |rows| - 1;
      var steeper := Reslope(a, 0.0)(trend.value);
      JudgeScaled(rows[n], MapSeq(Scaled(a), rows)[n], trend.value, steeper, window, a);
    }
  }

  /** The unit of the byte counts does not matter: the days and the reason stay, the growth scales. */
  lemma ForecastIgnoresUnit(primary: seq<Row>, fallback: seq<Row>, a: real)
    requires a > 0.0
    ensures SameOutlook(ForecastDetail(primary, fallback),
                        ForecastDetail(MapSeq(Scaled(a), primary), MapSeq(Scaled(a), fallback)), a)
  {
    TrendScaled(primary, a);
    TrendScaled(fallback, a);
    ForecastByScaled(TrendOf(primary), primary, PRIMARY_DAYS, a);
    ForecastByScaled(TrendOf(fallback), fallback, FALLBACK_DAYS, a);
  }
}
