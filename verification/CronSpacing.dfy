/** The spacing of a cron schedule: `_expand_field` and `cron_interval_seconds` of
    `app/replication_monitor.py`. Numbers are written in ASCII digits. */
module CronSpacing {
  import opened Sorting
  import opened Text

  const DAY := 86400

  // --------------------------------------------------------------- `int(text)`

  /** The digits of a number in which single underscores may separate digits. */
  function Ungrouped(s: string): Option<string> {
    if s == [] || !IsDigit(s[0]) then None
    else if |s| == 1 then Some(s)
    else
      var rest := if s[1] == '_' then s[2..] else s[1..];
      match Ungrouped(rest)
      case None => None
      case Some(digits) => Some([s[0]] + digits)
  }

  lemma {:induction false} UngroupedIsDigits(s: string)
    ensures Ungrouped(s).Some? ==> AllDigits(Ungrouped(s).value)
    decreases |s|
  {
    if s != [] && IsDigit(s[0]) && |s| > 1 {
      UngroupedIsDigits(if s[1] == '_' then s[2..] else s[1..]);
    }
  }

  function IntOf(s: string): Option<int> {
    var signed := s != [] && (s[0] == '-' || s[0] == '+');
    UngroupedIsDigits(if signed then s[1..] else s);
    match Ungrouped(if signed then s[1..] else s)
    case None => None
    case Some(digits) =>
      var n: int := NumberOf(digits);
      Some(if signed && s[0] == '-' then -n else n)
  }

  // ------------------------------------------------------------- _expand_field

  /** One comma-separated part: every `step`th value from `start` to `end`. */
  datatype Part = Part(start: int, end: int, step: int)

  function MaxInt(a: int, b: int): int { if a < b then b else a }

  function PartOf(text: string, lo: int, hi: int): Option<Part> {
    var step := if '/' in text then IntOf(After(text, '/')) else Some(1);
    var base := if '/' in text then Before(text, '/') else text;
    var bounds: Option<(int, int)> :=
      if base == "*" then Some((lo, hi))
      else if '-' in base then
        match (IntOf(Before(base, '-')), IntOf(After(base, '-')))
        case (Some(a), Some(b)) => Some((a, b))
        case _ => None
      else
        match IntOf(base) case Some(v) => Some((v, v)) case None => None;
    match (step, bounds)
    case (Some(n), Some((a, b))) => Some(Part(a, b, MaxInt(n, 1)))
    case _ => None
  }

  // ------------------------------------------------- what the spelled parts read as

  lemma {:induction false} UngroupedDigits(s: string)
    requires Numeric(s)
    ensures Ungrouped(s) == Some(s)
  {
    if |s| > 1 {
      assert IsDigit(s[1]);
      UngroupedDigits(s[1..]);
      assert s == [s[0]] + s[1..];
    }
  }

  /** One underscore between two groups of digits is passed over. */
  lemma {:induction false} UngroupedGroups(a: string, b: string)
    requires Numeric(a) && Numeric(b)
    ensures Ungrouped(a + "_" + b) == Some(a + b)
  {
    var s := a + "_" + b;
    if |a| == 1 {
      assert s[0] == a[0] && s[1] == '_' && s[2..] == b && a + b == [a[0]] + b;
      UngroupedDigits(b);
    } else {
      assert s[0] == a[0] && s[1] == a[1] && IsDigit(a[1]) && s[1..] == a[1..] + "_" + b;
      UngroupedGroups(a[1..], b);
      assert a + b == [a[0]] + (a[1..] + b);
    }
  }

  /** Numbers are read with or without a sign. */
  lemma {:induction false} IntIsRead(n: nat)
    ensures IntOf(Decimal(n)) == Some(n) && IntOf("+" + Decimal(n)) == Some(n)
    ensures IntOf("-" + Decimal(n)).Some? && IntOf("-" + Decimal(n)).value == -(n as int)
    ensures IntOf("").None?
  {
    var d := Decimal(n);
    UngroupedDigits(d);
    NumberOfDecimal(n);
    assert ("+" + d)[1..] == d && ("-" + d)[1..] == d && IsDigit(d[0]);
  }

  lemma NotNumeric(s: string, c: char)
    requires Numeric(s) && !IsDigit(c)
    ensures c !in s
  {
  }

  /** `*`, a number, and a range, without a step. */
  lemma {:induction false} PlainPartIsRead(a: nat, b: nat, lo: int, hi: int)
    ensures PartOf("*", lo, hi) == Some(Part(lo, hi, 1))
    ensures PartOf(Decimal(a), lo, hi) == Some(Part(a, a, 1))
    ensures PartOf(Decimal(a) + "-" + Decimal(b), lo, hi) == Some(Part(a, b, 1))
  {
    RangeIsRead(a, b);
    IntIsRead(a);
    var d, r := Decimal(a), Decimal(a) + "-" + Decimal(b);
    NotNumeric(d, '/');
    NotNumeric(d, '-');
    NotNumeric(Decimal(b), '/');
    assert d[0] != '*' && '/' !in r && '-' in r && r[0] == d[0];
    assert r[|d|] == '-';
  }

  lemma {:induction false} RangeIsRead(a: nat, b: nat)
    ensures var r := Decimal(a) + "-" + Decimal(b);
            '-' in r && IntOf(Before(r, '-')) == Some(a) && IntOf(After(r, '-')) == Some(b)
  {
    NotNumeric(Decimal(a), '-');
    CutAt(Decimal(a), '-', Decimal(b), Decimal(a) + "-" + Decimal(b));
    assert (Decimal(a) + "-" + Decimal(b))[|Decimal(a)|] == '-';
    IntIsRead(a);
    IntIsRead(b);
  }

  /** A step after a slash goes with any of the three; a step of none counts as one. */
  lemma {:induction false} SteppedPartIsRead(base: string, n: nat, lo: int, hi: int)
    requires '/' !in base && PartOf(base, lo, hi).Some?
    ensures PartOf(base + "/" + Decimal(n), lo, hi) ==
            Some(PartOf(base, lo, hi).value.(step := if n == 0 then 1 else n))
  {
    var text := base + "/" + Decimal(n);
    CutAt(base, '/', Decimal(n), text);
    assert text[|base|] == '/';
    IntIsRead(n);
  }

  /** None as soon as one part cannot be read. */
  function PartsOf(texts: seq<string>, lo: int, hi: int): Option<seq<Part>> {
    if texts == [] then Some([])
    else
      match (PartsOf(texts[..|texts| - 1], lo, hi), PartOf(texts[|texts| - 1], lo, hi))
      case (Some(ps), Some(p)) => Some(ps + [p])
      case _ => None
  }

  predicate OnStep(p: Part, v: int) { p.step > 0 && (v - p.start) % p.step == 0 }

  predicate Triggers(p: Part, lo: int, hi: int, v: int) {
    p.start <= v <= p.end && lo <= v <= hi && OnStep(p, v)
  }

  predicate IsTriggered(parts: seq<Part>, lo: int, hi: int, v: int) {
    exists p :: p in parts && Triggers(p, lo, hi, v)
  }

  predicate Ascending(s: seq<int>) { forall i, j :: 0 <= i < j < |s| ==> s[i] < s[j] }

  /** The expansion of a field: exactly the triggered values, in ascending order. */
  ghost predicate IsExpansion(values: seq<int>, parts: seq<Part>, lo: int, hi: int) {
    Ascending(values) && forall v :: v in values <==> IsTriggered(parts, lo, hi, v)
  }

  /** `range(start, end + 1, step)` within the bounds. */
  method ExpandPart(p: Part, lo: int, hi: int, out: seq<int>) returns (more: seq<int>)
    requires p.step > 0
    ensures forall v :: v in more <==> v in out || Triggers(p, lo, hi, v)
  {
    more := out;
    var v := p.start;
    FirstStep(p);
    while v <= p.end
      invariant p.start <= v && OnStep(p, v)
      invariant forall x :: x in more <==> x in out || (Triggers(p, lo, hi, x) && x < v)
      decreases p.end - v
    {
      NextStep(p, v);
      if lo <= v <= hi {
        more := more + [v];
      }
      v := v + p.step;
    }
  }

  lemma FirstStep(p: Part)
    requires p.step > 0
    ensures OnStep(p, p.start)
  {
    Remainder(0, p.step, 0);
  }

  lemma NextStep(p: Part, v: int)
    requires OnStep(p, v)
    ensures OnStep(p, v + p.step)
    ensures forall x {:trigger OnStep(p, x)} :: v < x < v + p.step ==> !OnStep(p, x)
  {
    var k := (v - p.start) / p.step;
    assert v - p.start == k * p.step;
    assert v + p.step - p.start == (k + 1) * p.step;
    Remainder(k + 1, p.step, 0);
    forall x {:trigger OnStep(p, x)} | v < x < v + p.step ensures !OnStep(p, x) {
      Remainder(k, p.step, x - v);
    }
  }

  lemma AtLeastOnce(e: int, d: int)
    requires d > 0
    ensures (e > 0 ==> e * d >= d) && (e < 0 ==> e * d <= -d)
  {
  }

  lemma Remainder(k: int, d: int, r: int)
    requires d > 0 && 0 <= r < d
    ensures (k * d + r) % d == r
  {
    var n := k * d + r;
    assert n == (n / d) * d + n % d;
    var e := n / d - k;
    assert e * d == (n / d) * d - k * d;
    AtLeastOnce(e, d);
  }

  /** `sorted(set(out))` */
  function Distinct_(s: seq<int>): seq<int> {
    if s == [] then []
    else
      var rest := Distinct_(s[..|s| - 1]);
      if s[|s| - 1] in rest then rest else rest + [s[|s| - 1]]
  }

  lemma {:induction false} DistinctIsDistinct(s: seq<int>)
    ensures Distinct(Distinct_(s)) && forall v :: v in Distinct_(s) <==> v in s
  {
    if s != [] {
      var n := |s| - 1;
      DistinctIsDistinct(s[..n]);
      assert s == s[..n] + [s[n]];
    }
  }

  lemma {:induction false} SortedSetIsAscending(s: seq<int>)
    ensures Ascending(Sort(IntLe, Distinct_(s))) && forall v :: v in Sort(IntLe, Distinct_(s)) <==> v in s
  {
    DistinctIsDistinct(s);
    SortDistinct(IntLe, Distinct_(s));
    SortIsSorted(IntLe, Distinct_(s));
    SortKeepsElements(IntLe, Distinct_(s));
    var t := Sort(IntLe, Distinct_(s));
    forall i, j | 0 <= i < j < |t| ensures t[i] < t[j] {
      assert IntLe(t[i], t[j]) && t[i] != t[j];
    }
  }

  ghost predicate Lists(out: seq<int>, parts: seq<Part>, lo: int, hi: int) {
    forall v :: v in out <==> IsTriggered(parts, lo, hi, v)
  }

  lemma MoreTriggered(parts: seq<Part>, p: Part, lo: int, hi: int, out: seq<int>, more: seq<int>)
    requires Lists(out, parts, lo, hi) && forall v :: v in more <==> v in out || Triggers(p, lo, hi, v)
    ensures Lists(more, parts + [p], lo, hi)
  {
    forall v ensures IsTriggered(parts + [p], lo, hi, v) <==> IsTriggered(parts, lo, hi, v) || Triggers(p, lo, hi, v) {
      assert p in parts + [p];
    }
  }

  method ExpandField(field: string, lo: int, hi: int) returns (values: Option<seq<int>>)
    ensures values.Some? <==> PartsOf(Split(field, ','), lo, hi).Some?
    ensures values.Some? ==> IsExpansion(values.value, PartsOf(Split(field, ','), lo, hi).value, lo, hi)
  {
    var texts := Split(field, ',');
    var out: seq<int> := [];
    for i := 0 to |texts|
      invariant PartsOf(texts[..i], lo, hi).Some?
      invariant Lists(out, PartsOf(texts[..i], lo, hi).value, lo, hi)
    {
      assert texts[..i + 1][..i] == texts[..i];
      var p := PartOf(texts[i], lo, hi);
      if p.None? {
        PrefixFails(texts[..i + 1], texts, lo, hi);
        return None;
      }
      ghost var parts := PartsOf(texts[..i], lo, hi).value;
      ghost var before := out;
      out := ExpandPart(p.value, lo, hi, out);
      MoreTriggered(parts, p.value, lo, hi, before, out);
      assert PartsOf(texts[..i + 1], lo, hi) == Some(parts + [p.value]);
    }
    assert texts[..|texts|] == texts;
    SortedSetIsAscending(out);
    values := Some(Sort(IntLe, Distinct_(out)));
  }

  lemma {:induction false} PrefixFails(prefix: seq<string>, texts: seq<string>, lo: int, hi: int)
    requires prefix <= texts && PartsOf(prefix, lo, hi).None?
    ensures PartsOf(texts, lo, hi).None?
    decreases |texts|
  {
    if prefix != texts {
      PrefixFails(prefix, texts[..|texts| - 1], lo, hi);
    }
  }

  // -------------------------------------------------------------- the firings

  function TimesOfHour(h: int, minutes: seq<int>): seq<int> {
    seq(|minutes|, i requires 0 <= i < |minutes| => h * 3600 + minutes[i] * 60)
  }

  function Times(hours: seq<int>, minutes: seq<int>): seq<int> {
    if hours == [] then []
    else Times(hours[..|hours| - 1], minutes) + TimesOfHour(hours[|hours| - 1], minutes)
  }

  predicate Within(s: seq<int>, lo: int, hi: int) { forall i :: 0 <= i < |s| ==> lo <= s[i] <= hi }

  lemma {:induction false} TimesAscend(hours: seq<int>, minutes: seq<int>)
    requires Ascending(hours) && Ascending(minutes) && Within(hours, 0, 23) && Within(minutes, 0, 59)
    ensures var t := Times(hours, minutes);
            && Ascending(t) && |t| == |hours| * |minutes|
            && forall i :: 0 <= i < |t| ==> 0 <= t[i] && t[i] < (hours[|hours| - 1] + 1) * 3600
  {
    if hours != [] {
      var n := |hours| - 1;
      TimesAscend(hours[..n], minutes);
      var before, here := Times(hours[..n], minutes), TimesOfHour(hours[n], minutes);
      HourAscends(hours[n], minutes);
      if n > 0 {
        assert hours[n - 1] < hours[n] && hours[..n][n - 1] == hours[n - 1];
      }
      AscendsAcross(before, here, hours[n] * 3600);
      assert (n + 1) * |minutes| == n * |minutes| + |minutes|;
    }
  }

  lemma HourAscends(h: int, minutes: seq<int>)
    requires Ascending(minutes) && Within(minutes, 0, 59)
    ensures var here := TimesOfHour(h, minutes);
            Ascending(here) && forall i :: 0 <= i < |here| ==> h * 3600 <= here[i] < (h + 1) * 3600
  {
  }

  lemma AscendsAcross(a: seq<int>, b: seq<int>, bound: int)
    requires Ascending(a) && Ascending(b)
    requires (forall i :: 0 <= i < |a| ==> a[i] < bound) && forall i :: 0 <= i < |b| ==> bound <= b[i]
    ensures Ascending(a + b)
  {
  }

  /** The schedule fires at this second of the day. */
  predicate FiresAt(minutes: seq<int>, hours: seq<int>, t: int) {
    exists h, m :: h in hours && m in minutes && t == h * 3600 + m * 60
  }

  lemma {:induction false} TimesAreFirings(hours: seq<int>, minutes: seq<int>, t: int)
    ensures t in Times(hours, minutes) <==> FiresAt(minutes, hours, t)
  {
    if hours != [] {
      var n := |hours| - 1;
      assert hours == hours[..n] + [hours[n]];
      TimesAreFirings(hours[..n], minutes, t);
      HourFires(hours[n], minutes, t);
      if h, m :| h in hours && m in minutes && t == h * 3600 + m * 60 {
        if h != hours[n] {
          assert h in hours[..n];
          assert FiresAt(minutes, hours[..n], t);
        } else {
          assert h in [hours[n]];
          assert FiresAt(minutes, [hours[n]], t);
        }
      }
      if FiresAt(minutes, hours[..n], t) {
        var h, m :| h in hours[..n] && m in minutes && t == h * 3600 + m * 60;
        assert h in hours && m in minutes;
        assert FiresAt(minutes, hours, t);
      }
      if FiresAt(minutes, [hours[n]], t) {
        var h, m :| h in [hours[n]] && m in minutes && t == h * 3600 + m * 60;
        assert h in hours && m in minutes;
        assert FiresAt(minutes, hours, t);
      }
    }
  }

  lemma HourFires(h: int, minutes: seq<int>, t: int)
    ensures t in TimesOfHour(h, minutes) <==> FiresAt(minutes, [h], t)
  {
    if t in TimesOfHour(h, minutes) {
      var i :| 0 <= i < |minutes| && TimesOfHour(h, minutes)[i] == t;
      assert h in [h] && minutes[i] in minutes;
    }
    if FiresAt(minutes, [h], t) {
      var g, m :| g in [h] && m in minutes && t == g * 3600 + m * 60;
      var i :| 0 <= i < |minutes| && minutes[i] == m;
      assert TimesOfHour(h, minutes)[i] == t;
    }
  }

  // ------------------------------------------------------------- the spacing

  /** How far apart two firings are on the clock face of the day. */
  function CircularDistance(a: int, b: int): int {
    var d := if a < b then b - a else a - b;
    if d <= DAY - d then d else DAY - d
  }

  function Gaps(times: seq<int>): seq<int> {
    if |times| < 2 then [] else Gaps(times[..|times| - 1]) + [times[|times| - 1] - times[|times| - 2]]
  }

  function Wrap(times: seq<int>): int
    requires times != []
  {
    DAY - times[|times| - 1] + times[0]
  }

  function Min(s: seq<int>): int
    requires s != []
  {
    if |s| == 1 then s[0]
    else
      var m := Min(s[..|s| - 1]);
      if s[|s| - 1] < m then s[|s| - 1] else m
  }

  function Spacing(times: seq<int>): int
    requires times != []
  {
    if |times| == 1 then DAY else Min(Gaps(times) + [Wrap(times)])
  }

  lemma {:induction false} MinIsLeast(s: seq<int>)
    requires s != []
    ensures Min(s) in s && forall v :: v in s ==> Min(s) <= v
  {
    if |s| > 1 {
      var n := |s| - 1;
      MinIsLeast(s[..n]);
      assert s == s[..n] + [s[n]];
    }
  }

  lemma {:induction false} GapAt(times: seq<int>)
    ensures |Gaps(times)| == if times == [] then 0 else |times| - 1
    ensures forall i :: 0 <= i < |Gaps(times)| ==> Gaps(times)[i] == times[i + 1] - times[i]
  {
    if |times| >= 2 {
      GapAt(times[..|times| - 1]);
    }
  }

  /** Firings of one day. */
  predicate AreFirings(times: seq<int>) {
    times != [] && Ascending(times) && forall i :: 0 <= i < |times| ==> 0 <= times[i] < DAY
  }

  /** Neighbours are at least `s` apart. */
  ghost predicate Spaced(times: seq<int>, s: int) {
    forall i, j :: 0 <= i < |times| - 1 && j == i + 1 ==> s <= times[j] - times[i]
  }

  lemma SpacingBounds(times: seq<int>)
    requires AreFirings(times) && |times| >= 2
    ensures var s := Spacing(times);
            && s > 0 && s <= Wrap(times) && Spaced(times, s)
            && (s == Wrap(times) || exists i, j :: 0 <= i < |times| - 1 && j == i + 1 && s == times[j] - times[i])
  {
    var gaps := Gaps(times) + [Wrap(times)];
    GapAt(times);
    MinIsLeast(gaps);
    assert gaps[|gaps| - 1] in gaps;
    forall i | 0 <= i < |times| - 1 ensures Min(gaps) <= times[i + 1] - times[i] {
      assert gaps[i] in gaps;
    }
    var k :| 0 <= k < |gaps| && gaps[k] == Min(gaps);
    if k < |times| - 1 {
      var next := k + 1;
      assert times[k] < times[next] && Min(gaps) == times[next] - times[k];
    }
  }

  /** Firings lie at least the spacing apart, step by step. */
  lemma {:induction false} Apart(times: seq<int>, s: int, i: nat, j: nat)
    requires i <= j < |times| && s > 0 && Spaced(times, s)
    ensures times[j] - times[i] >= s * (j - i)
    decreases j - i
  {
    if i < j {
      Apart(times, s, i, j - 1);
      assert s * (j - i) == s * (j - 1 - i) + s;
    }
  }

  lemma {:induction false} ApartOnce(times: seq<int>, s: int, i: nat, j: nat)
    requires i < j < |times| && s > 0 && Spaced(times, s)
    ensures times[j] - times[i] >= s
    decreases j - i
  {
    var k := j - 1;
    assert s <= times[j] - times[k];
    if i < k {
      ApartOnce(times, s, i, k);
    }
  }

  lemma ForwardIsApart(times: seq<int>, i: nat, j: nat)
    requires AreFirings(times) && i < j < |times|
    ensures Spacing(times) <= times[j] - times[i] && Spacing(times) <= Wrap(times)
  {
    SpacingBounds(times);
    ApartOnce(times, Spacing(times), i, j);
  }

  lemma OrderOfFirings(times: seq<int>, i: nat, j: nat)
    requires AreFirings(times) && i < j < |times|
    ensures 0 <= times[0] <= times[i] < times[j] <= times[|times| - 1] < DAY
  {
  }

  lemma BothWays(a: int, b: int, first: int, last: int, s: int)
    requires first <= a < b <= last && s <= b - a && s <= DAY - last + first
    ensures s <= CircularDistance(a, b)
  {
  }

  lemma PairIsApart(times: seq<int>, i: nat, j: nat)
    requires AreFirings(times) && i < j < |times|
    ensures Spacing(times) <= CircularDistance(times[i], times[j])
  {
    ForwardIsApart(times, i, j);
    OrderOfFirings(times, i, j);
    BothWays(times[i], times[j], times[0], times[|times| - 1], Spacing(times));
  }

  /** The spacing is the least distance between any two firings of the day on the
      clock face, not only between neighbours. */
  lemma SpacingIsLeastDistance(times: seq<int>)
    requires AreFirings(times) && |times| >= 2
    ensures forall i, j :: 0 <= i < j < |times| ==> Spacing(times) <= CircularDistance(times[i], times[j])
    ensures exists i, j :: 0 <= i < j < |times| && Spacing(times) == CircularDistance(times[i], times[j])
  {
    SpacingBounds(times);
    var s, n := Spacing(times), |times| - 1;
    forall i, j | 0 <= i < j < |times| ensures s <= CircularDistance(times[i], times[j]) {
      PairIsApart(times, i, j);
    }
    if s == Wrap(times) {
      assert CircularDistance(times[0], times[n]) == s;
    } else {
      var i, j :| 0 <= i < n && j == i + 1 && s == times[j] - times[i];
      OrderOfFirings(times, i, j);
      assert CircularDistance(times[i], times[j]) == s;
    }
  }

  /** The spacing fits into the day once per firing. */
  lemma SpacingFitsTheDay(times: seq<int>)
    requires AreFirings(times)
    ensures 0 < Spacing(times) && Spacing(times) * |times| <= 24 * 3600
    ensures |times| == 1 ==> Spacing(times) == 24 * 3600
  {
    if |times| >= 2 {
      SpacingBounds(times);
      var s, n := Spacing(times), |times| - 1;
      Apart(times, s, 0, n);
      assert s * |times| == s * n + s;
    }
  }

  // ---------------------------------------------------- cron_interval_seconds

  /** The fields of the expression and their expansions. */
  ghost predicate Expands(expr: string, minutes: seq<int>, hours: seq<int>) {
    var words := Words(Strip(expr));
    && |words| == 5
    && PartsOf(Split(words[0], ','), 0, 59).Some? && PartsOf(Split(words[1], ','), 0, 23).Some?
    && IsExpansion(minutes, PartsOf(Split(words[0], ','), 0, 59).value, 0, 59)
    && IsExpansion(hours, PartsOf(Split(words[1], ','), 0, 23).value, 0, 23)
    && minutes != [] && hours != []
  }

  method GapsBetween(times: seq<int>) returns (gaps: seq<int>)
    requires times != []
    ensures gaps == Gaps(times)
  {
    gaps := [];
    for i := 0 to |times| - 1
      invariant gaps == Gaps(times[..i + 1])
    {
      assert times[..i + 2][..i + 1] == times[..i + 1];
      gaps := gaps + [times[i + 1] - times[i]];
    }
    assert times[..|times|] == times;
  }

  method SpacingOf(hours: seq<int>, minutes: seq<int>) returns (interval: int)
    requires Ascending(hours) && Ascending(minutes) && Within(hours, 0, 23) && Within(minutes, 0, 59)
    requires hours != [] && minutes != []
    ensures AreFirings(Times(hours, minutes)) && interval == Spacing(Times(hours, minutes))
  {
    TimesAscend(hours, minutes);
    assert |hours| * |minutes| >= 1;
    var times := Times(hours, minutes);
    AscendingIsSorted(times);
    times := Sort(IntLe, times);
    if |times| == 1 {
      return DAY;
    }
    var gaps := GapsBetween(times);
    interval := Min(gaps + [DAY - times[|times| - 1] + times[0]]);
  }

  lemma {:induction false} AscendingIsSorted(s: seq<int>)
    requires Ascending(s)
    ensures Sort(IntLe, s) == s
  {
    SortIsSorted(IntLe, s);
    SortKeepsElements(IntLe, s);
    SortedIsUnique(IntLe, Sort(IntLe, s), s);
  }

  /** The interval is none exactly for an expression that cannot be read or never fires. */
  method CronIntervalSeconds(expr: string) returns (interval: Option<int>, ghost minutes: seq<int>,
                                                    ghost hours: seq<int>)
    ensures interval.Some? ==> Expands(expr, minutes, hours) && AreFirings(Times(hours, minutes))
    ensures interval.Some? ==> interval.value == Spacing(Times(hours, minutes))
    ensures interval.None? ==> forall ms, hs :: !Expands(expr, ms, hs)
  {
    minutes, hours := [], [];
    var words := Words(Strip(expr));
    if |words| != 5 {
      return None, [], [];
    }
    var ms := ExpandField(words[0], 0, 59);
    var hs := ExpandField(words[1], 0, 23);
    if ms.None? || hs.None? {
      return None, [], [];
    }
    ghost var mp, hp := PartsOf(Split(words[0], ','), 0, 59).value, PartsOf(Split(words[1], ','), 0, 23).value;
    ExpansionIsWithin(ms.value, mp, 0, 59);
    ExpansionIsWithin(hs.value, hp, 0, 23);
    if ms.value == [] || hs.value == [] {
      NoOtherExpansion(ms.value, mp, 0, 59);
      NoOtherExpansion(hs.value, hp, 0, 23);
      return None, [], [];
    }
    var spacing := SpacingOf(hs.value, ms.value);
    interval, minutes, hours := Some(spacing), ms.value, hs.value;
  }

  lemma ExpansionIsWithin(values: seq<int>, parts: seq<Part>, lo: int, hi: int)
    requires IsExpansion(values, parts, lo, hi)
    ensures Within(values, lo, hi)
  {
    forall i | 0 <= i < |values| ensures lo <= values[i] <= hi {
      assert values[i] in values;
    }
  }

  lemma NoOtherExpansion(values: seq<int>, parts: seq<Part>, lo: int, hi: int)
    requires IsExpansion(values, parts, lo, hi)
    ensures values == [] ==> forall other :: IsExpansion(other, parts, lo, hi) ==> other == []
  {
    forall other | IsExpansion(other, parts, lo, hi) && values == [] ensures other == [] {
      EmptyOrHasFirst(other);
    }
  }

  lemma EmptyOrHasFirst(s: seq<int>)
    ensures s == [] || s[0] in s
  {
  }
}
