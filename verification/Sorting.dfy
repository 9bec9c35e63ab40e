/** Python's `sorted` as a stable insertion sort, and the order statistics the
    analysis code reads off a sorted list. */
module Sorting {
  import opened Text

  /** What `sorted` needs of a comparison: every two elements compare, and comparing chains. */
  ghost predicate TotalPreorder<T(!new)>(le: (T, T) -> bool) {
    && (forall x, y :: le(x, y) || le(y, x))
    && (forall x, y, z :: le(x, y) && le(y, z) ==> le(x, z))
  }

  ghost predicate SortedBy<T>(le: (T, T) -> bool, s: seq<T>) {
    forall i, j :: 0 <= i < j < |s| ==> le(s[i], s[j])
  }

  function Insert<T>(le: (T, T) -> bool, x: T, s: seq<T>): seq<T> {
    if s == [] then [x]
    else if le(x, s[0]) then [x] + s
    else [s[0]] + Insert(le, x, s[1..])
  }

  function Sort<T>(le: (T, T) -> bool, s: seq<T>): seq<T> {
    if s == [] then [] else Insert(le, s[0], Sort(le, s[1..]))
  }

  lemma {:induction false} InsertKeepsElements<T>(le: (T, T) -> bool, x: T, s: seq<T>)
    ensures multiset(Insert(le, x, s)) == multiset(s) + multiset{x}
  {
    if s == [] {
    } else if le(x, s[0]) {
      assert [x] + s == [x] + s;
    } else {
      InsertKeepsElements(le, x, s[1..]);
      assert s == [s[0]] + s[1..];
    }
  }

  /** Sorting loses and invents nothing. */
  lemma {:induction false} SortKeepsElements<T>(le: (T, T) -> bool, s: seq<T>)
    ensures multiset(Sort(le, s)) == multiset(s)
    ensures |Sort(le, s)| == |s|
    ensures forall x :: x in s <==> x in Sort(le, s)
  {
    if s != [] {
      SortKeepsElements(le, s[1..]);
      InsertKeepsElements(le, s[0], Sort(le, s[1..]));
      assert s == [s[0]] + s[1..];
    }
    SameElements(Sort(le, s), s);
  }

  lemma SameElements<T>(s: seq<T>, t: seq<T>)
    requires multiset(s) == multiset(t)
    ensures |s| == |t|
    ensures forall x :: x in t <==> x in s
  {
    assert |s| == |multiset(s)|;
    assert |t| == |multiset(t)|;
    forall x ensures x in t <==> x in s {
      assert x in t <==> x in multiset(t);
      assert x in s <==> x in multiset(s);
    }
  }

  lemma {:induction false} InsertIsSorted<T(!new)>(le: (T, T) -> bool, x: T, s: seq<T>)
    requires TotalPreorder(le) && SortedBy(le, s)
    ensures SortedBy(le, Insert(le, x, s))
  {
    if s != [] && !le(x, s[0]) {
      InsertIsSorted(le, x, s[1..]);
      var rest := Insert(le, x, s[1..]);
      InsertKeepsElements(le, x, s[1..]);
      forall j | 0 <= j < |rest| ensures le(s[0], rest[j]) {
        assert rest[j] in multiset(rest);
        if rest[j] != x {
          assert rest[j] in multiset(s[1..]);
          assert rest[j] in s[1..];
        }
      }
    }
  }

  lemma {:induction false} SortIsSorted<T(!new)>(le: (T, T) -> bool, s: seq<T>)
    requires TotalPreorder(le)
    ensures SortedBy(le, Sort(le, s))
  {
    if s != [] {
      SortIsSorted(le, s[1..]);
      InsertIsSorted(le, s[0], Sort(le, s[1..]));
    }
  }

  lemma SameHead<T(!new)>(le: (T, T) -> bool, s: seq<T>, t: seq<T>)
    requires forall x, y :: le(x, y) && le(y, x) ==> x == y
    requires SortedBy(le, s) && SortedBy(le, t) && multiset(s) == multiset(t) && s != []
    ensures t != [] && s[0] == t[0]
  {
    SameElements(s, t);
    assert s[0] in t && t[0] in s;
    var i :| 0 <= i < |t| && t[i] == s[0];
    var j :| 0 <= j < |s| && s[j] == t[0];
    if i > 0 && j > 0 {
      assert le(t[0], t[i]) && le(s[0], s[j]);
    }
  }

  lemma SameTail<T>(s: seq<T>, t: seq<T>)
    requires s != [] && t != [] && s[0] == t[0] && multiset(s) == multiset(t)
    ensures multiset(s[1..]) == multiset(t[1..])
  {
    assert s == [s[0]] + s[1..] && t == [t[0]] + t[1..];
    assert multiset(s[1..]) == multiset(s) - multiset{s[0]};
    assert multiset(t[1..]) == multiset(t) - multiset{t[0]};
  }

  /** Two sorted arrangements of the same elements are the same sequence, when
      the comparison tells any two different elements apart. */
  lemma {:induction false} SortedIsUnique<T(!new)>(le: (T, T) -> bool, s: seq<T>, t: seq<T>)
    requires forall x, y :: le(x, y) && le(y, x) ==> x == y
    requires SortedBy(le, s) && SortedBy(le, t) && multiset(s) == multiset(t)
    ensures s == t
    decreases |s|
  {
    if s == [] {
      SameElements(s, t);
    } else {
      SameHead(le, s, t);
      SameTail(s, t);
      SortedIsUnique(le, s[1..], t[1..]);
      assert s == [s[0]] + s[1..] && t == [t[0]] + t[1..];
    }
  }

  predicate IntLe(x: int, y: int) { x <= y }

  predicate RealLe(x: real, y: real) { x <= y }

  /** Python's string comparison: code point by code point, a prefix before its extensions. */
  predicate StringLe(s: string, t: string) {
    s == [] || (t != [] && (s[0] < t[0] || (s[0] == t[0] && StringLe(s[1..], t[1..]))))
  }

  /** The texts agree up to place `i`, where the first one ends or has the smaller character. */
  predicate FirstDifference(s: string, t: string, i: int) {
    0 <= i <= |s| && i <= |t| && s[..i] == t[..i] && (i == |s| || (i < |t| && s[i] < t[i]))
  }

  lemma {:induction false} StringLeIsLexicographic(s: string, t: string)
    ensures StringLe(s, t) <==> exists i :: FirstDifference(s, t, i)
  {
    forall i | FirstDifference(s, t, i) && i > 0 ensures s != [] && t != [] && s[0] == t[0] {
      assert s[0] == s[..i][0] && t[0] == t[..i][0];
    }
    if s == [] || t == [] || s[0] != t[0] {
      assert s == [] ==> FirstDifference(s, t, 0);
      assert s != [] && t != [] && s[0] < t[0] ==> FirstDifference(s, t, 0);
    } else {
      StringLeIsLexicographic(s[1..], t[1..]);
      if i :| FirstDifference(s[1..], t[1..], i) {
        assert s[..i + 1] == [s[0]] + s[1..][..i] && t[..i + 1] == [t[0]] + t[1..][..i];
        assert FirstDifference(s, t, i + 1);
      }
      if i :| FirstDifference(s, t, i) {
        assert i > 0 && s[1..][..i - 1] == s[..i][1..] && t[1..][..i - 1] == t[..i][1..];
        assert FirstDifference(s[1..], t[1..], i - 1);
      }
    }
  }

  lemma {:induction false} StringLeTotal(s: string, t: string)
    ensures StringLe(s, t) || StringLe(t, s)
  {
    if s != [] && t != [] {
      StringLeTotal(s[1..], t[1..]);
    }
  }

  lemma {:induction false} StringLeTransitive(s: string, t: string, u: string)
    requires StringLe(s, t) && StringLe(t, u)
    ensures StringLe(s, u)
  {
    if s != [] && t != [] && u != [] && s[0] == t[0] == u[0] {
      StringLeTransitive(s[1..], t[1..], u[1..]);
    }
  }

  lemma {:induction false} StringLeAntisymmetric(s: string, t: string)
    requires StringLe(s, t) && StringLe(t, s)
    ensures s == t
  {
    if s != [] && t != [] {
      StringLeAntisymmetric(s[1..], t[1..]);
      assert s == [s[0]] + s[1..] && t == [t[0]] + t[1..];
    }
  }

  lemma StringLeOrders()
    ensures TotalPreorder(StringLe)
  {
    forall s, t ensures StringLe(s, t) || StringLe(t, s) {
      StringLeTotal(s, t);
    }
    forall s, t, u | StringLe(s, t) && StringLe(t, u) ensures StringLe(s, u) {
      StringLeTransitive(s, t, u);
    }
  }

  ghost predicate Distinct<K>(s: seq<K>) { forall i, j :: 0 <= i < j < |s| ==> s[i] != s[j] }

  /** Sorting a list without repetitions makes none. */
  lemma {:induction false} SortDistinct<T>(le: (T, T) -> bool, s: seq<T>)
    requires Distinct(s)
    ensures Distinct(Sort(le, s))
  {
    SortKeepsElements(le, s);
    DistinctIsMultiplicity(s);
    RepeatsCountTwice(Sort(le, s));
  }

  lemma RepeatsCountTwice<A>(s: seq<A>)
    ensures forall i, j :: 0 <= i < j < |s| && s[i] == s[j] ==> multiset(s)[s[i]] >= 2
  {
    forall i, j | 0 <= i < j < |s| && s[i] == s[j] ensures multiset(s)[s[i]] >= 2 {
      assert s == s[..j] + [s[j]] + s[j + 1..];
      assert s[..j][i] == s[i];
    }
  }

  lemma {:induction false} DistinctIsMultiplicity<A>(s: seq<A>)
    requires Distinct(s)
    ensures forall x :: multiset(s)[x] <= 1
  {
    if s != [] {
      var n := |s| - 1;
      DistinctIsMultiplicity(s[..n]);
      assert s == s[..n] + [s[n]];
      assert s[n] !in s[..n];
    }
  }

  // ------------------------------------------------------------------ counting

  function Count<T>(p: T -> bool, s: seq<T>): (n: nat)
    ensures n <= |s|
  {
    if s == [] then 0 else (if p(s[0]) then 1 else 0) + Count(p, s[1..])
  }

  lemma {:induction false} CountInsert<T>(le: (T, T) -> bool, p: T -> bool, x: T, s: seq<T>)
    ensures Count(p, Insert(le, x, s)) == Count(p, s) + if p(x) then 1 else 0
  {
    if s != [] && !le(x, s[0]) {
      CountInsert(le, p, x, s[1..]);
    }
  }

  lemma {:induction false} CountSort<T>(le: (T, T) -> bool, p: T -> bool, s: seq<T>)
    ensures Count(p, Sort(le, s)) == Count(p, s)
  {
    if s != [] {
      CountSort(le, p, s[1..]);
      CountInsert(le, p, s[0], Sort(le, s[1..]));
    }
  }

  /** Only the elements from `lo` on and before `hi` can be counted. */
  lemma {:induction false} CountWindow<T>(p: T -> bool, s: seq<T>, lo: nat, hi: nat)
    requires lo <= hi <= |s| && forall i :: 0 <= i < |s| && p(s[i]) ==> lo <= i < hi
    ensures Count(p, s) <= hi - lo
  {
    if s != [] {
      forall i | 0 <= i < |s[1..]| && p(s[1..][i])
        ensures (if lo == 0 then 0 else lo - 1) <= i < if hi == 0 then 0 else hi - 1 {
        assert s[1..][i] == s[i + 1];
      }
      CountWindow(p, s[1..], if lo == 0 then 0 else lo - 1, if hi == 0 then 0 else hi - 1);
    }
  }

  /** A function that keeps the order can be applied before or after sorting. */
  lemma {:induction false} InsertOfMap<T(!new), U>(le: (T, T) -> bool, le': (U, U) -> bool, f: T -> U, x: T, s: seq<T>)
    requires forall a, b :: le(a, b) <==> le'(f(a), f(b))
    ensures Insert(le', f(x), MapSeq(f, s)) == MapSeq(f, Insert(le, x, s))
  {
    if s != [] && !le(x, s[0]) {
      InsertOfMap(le, le', f, x, s[1..]);
      assert MapSeq(f, s)[1..] == MapSeq(f, s[1..]);
    }
  }

  lemma {:induction false} SortOfMap<T(!new), U>(le: (T, T) -> bool, le': (U, U) -> bool, f: T -> U, s: seq<T>)
    requires forall a, b :: le(a, b) <==> le'(f(a), f(b))
    ensures Sort(le', MapSeq(f, s)) == MapSeq(f, Sort(le, s))
  {
    if s == [] {
      assert MapSeq(f, s) == [];
    } else {
      SortOfMap(le, le', f, s[1..]);
      assert MapSeq(f, s)[1..] == MapSeq(f, s[1..]);
      InsertOfMap(le, le', f, s[0], Sort(le, s[1..]));
    }
  }

  // ------------------------------------------------------------------- medians

  /** The middle element of a sorted list, or the mean of the two in the middle. */
  function Median(sorted: seq<real>): real
    requires sorted != []
  {
    var mid := |sorted| / 2;
    if |sorted| % 2 == 1 then sorted[mid] else (sorted[mid - 1] + sorted[mid]) / 2.0
  }

  function MedianOf(values: seq<real>): real
    requires values != []
  {
    SortKeepsElements(RealLe, values);
    Median(Sort(RealLe, values))
  }

  /** `sorted`, and then the middle. */
  method TakeMedian(values: seq<real>) returns (m: real)
    requires values != []
    ensures m == MedianOf(values)
  {
    SortKeepsElements(RealLe, values);
    var sorted := Sort(RealLe, values);
    var mid := |sorted| / 2;
    m := if |sorted| % 2 == 1 then sorted[mid] else (sorted[mid - 1] + sorted[mid]) / 2.0;
  }

  lemma {:induction false} InsertPair(x: real, y: real)
    ensures var s := Insert(RealLe, x, [y]); |s| == 2 && s[0] + s[1] == x + y
  {
    if !RealLe(x, y) {
      assert [y][1..] == [];
      assert Insert(RealLe, x, []) == [x];
    }
  }

  /** The median of two values is their mean. */
  lemma MedianOfPair(x: real, y: real)
    ensures MedianOf([x, y]) == (x + y) / 2.0
  {
    assert [x, y][1..] == [y] && [y][1..] == [];
    assert Sort(RealLe, []) == [] && Sort(RealLe, [y]) == Insert(RealLe, y, Sort(RealLe, [y][1..]));
    assert Sort(RealLe, [x, y]) == Insert(RealLe, x, Sort(RealLe, [x, y][1..]));
    InsertPair(x, y);
    MedianOfTwo(Sort(RealLe, [x, y]));
  }

  lemma MedianOfTwo(s: seq<real>)
    requires |s| == 2
    ensures Median(s) == (s[0] + s[1]) / 2.0
  {
  }

  function Negated(x: real): real { -x }

  function Mirrored(s: seq<real>): (r: seq<real>)
    ensures |r| == |s| && forall i :: 0 <= i < |s| ==> r[i] == -s[|s| - 1 - i]
  {
    seq(|s|, i requires 0 <= i < |s| => -s[|s| - 1 - i])
  }

  lemma MirroredNext(s: seq<real>, x: real)
    ensures Mirrored([x] + s) == Mirrored(s) + [-x]
  {
  }

  lemma NegatedNext(s: seq<real>)
    requires s != []
    ensures MapSeq(Negated, s) == [-s[0]] + MapSeq(Negated, s[1..])
  {
    var r := MapSeq(Negated, s);
    assert r[0] == Negated(s[0]) && r[1..] == MapSeq(Negated, s[1..]) && r == [r[0]] + r[1..];
  }

  lemma {:induction false} MirroredElements(s: seq<real>)
    ensures multiset(Mirrored(s)) == multiset(MapSeq(Negated, s))
  {
    if s != [] {
      MirroredElements(s[1..]);
      assert s == [s[0]] + s[1..];
      NegatedNext(s);
      MirroredNext(s[1..], s[0]);
    }
  }

  lemma {:induction false} NegatedElements(s: seq<real>, x: real)
    ensures multiset(MapSeq(Negated, s))[x] == multiset(s)[-x]
  {
    if s != [] {
      NegatedElements(s[1..], x);
      assert s == [s[0]] + s[1..];
      NegatedNext(s);
    }
  }

  /** The median of the mirrored values is the mirrored median: neither side is preferred. */
  lemma MedianReflects(values: seq<real>)
    requires values != []
    ensures MapSeq(Negated, values) != [] && MedianOf(MapSeq(Negated, values)) == -MedianOf(values)
  {
    var s := Sort(RealLe, values);
    SortKeepsElements(RealLe, values);
    SortOfNegated(values, s);
    MiddleIsMirrored(s);
  }

  lemma {:induction false} SortOfNegated(values: seq<real>, s: seq<real>)
    requires s == Sort(RealLe, values)
    ensures Sort(RealLe, MapSeq(Negated, values)) == Mirrored(s)
  {
    var negated := MapSeq(Negated, values);
    SortKeepsElements(RealLe, values);
    SortKeepsElements(RealLe, negated);
    SortIsSorted(RealLe, values);
    SortIsSorted(RealLe, negated);
    MirroredElements(s);
    forall x ensures multiset(MapSeq(Negated, s))[x] == multiset(negated)[x] {
      NegatedElements(s, x);
      NegatedElements(values, x);
    }
    MirroredIsSorted(s);
    SortedIsUnique(RealLe, Mirrored(s), Sort(RealLe, negated));
  }

  lemma MirroredIsSorted(s: seq<real>)
    requires SortedBy(RealLe, s)
    ensures SortedBy(RealLe, Mirrored(s))
  {
    forall i, j | 0 <= i < j < |s| ensures RealLe(Mirrored(s)[i], Mirrored(s)[j]) {
      assert RealLe(s[|s| - 1 - j], s[|s| - 1 - i]);
    }
  }

  lemma MiddleIsMirrored(s: seq<real>)
    requires s != []
    ensures Median(Mirrored(s)) == -Median(s)
  {
    var mid := |s| / 2;
    if |s| % 2 == 1 {
      assert |s| - 1 - mid == mid;
    } else {
      assert |s| - 1 - mid == mid - 1;
    }
  }

  predicate Between(lo: real, hi: real, x: real) { lo <= x <= hi }

  function Inside(lo: real, hi: real): real -> bool { x => Between(lo, hi, x) }

  /** The median lies in every interval that holds more than half of the values. */
  lemma {:induction false} MedianFollowsMajority(values: seq<real>, lo: real, hi: real)
    requires values != [] && 2 * Count(Inside(lo, hi), values) > |values|
    ensures lo <= MedianOf(values) <= hi
  {
    SortKeepsElements(RealLe, values);
    SortIsSorted(RealLe, values);
    CountSort(RealLe, Inside(lo, hi), values);
    MiddlesFollowMajority(Sort(RealLe, values), lo, hi);
  }

  lemma {:induction false} MiddlesFollowMajority(s: seq<real>, lo: real, hi: real)
    requires s != [] && SortedBy(RealLe, s) && 2 * Count(Inside(lo, hi), s) > |s|
    ensures lo <= Median(s) <= hi
  {
    var mid := |s| / 2;
    MiddleFollowsMajority(s, lo, hi, mid);
    if |s| % 2 == 0 {
      MiddleFollowsMajority(s, lo, hi, mid - 1);
    }
  }

  lemma SortedPair(s: seq<real>, i: nat, j: nat)
    requires SortedBy(RealLe, s) && i < |s| && j < |s|
    ensures i <= j ==> s[i] <= s[j]
  {
    assert i < j ==> RealLe(s[i], s[j]);
  }

  lemma {:induction false} MiddleFollowsMajority(s: seq<real>, lo: real, hi: real, k: nat)
    requires SortedBy(RealLe, s) && k < |s| && 2 * k <= |s| <= 2 * k + 2
    requires 2 * Count(Inside(lo, hi), s) > |s|
    ensures lo <= s[k] <= hi
  {
    var p := Inside(lo, hi);
    if s[k] > hi {
      forall i | 0 <= i < |s| && p(s[i]) ensures 0 <= i < k {
        SortedPair(s, k, i);
      }
      CountWindow(p, s, 0, k);
    }
    if s[k] < lo {
      forall i | 0 <= i < |s| && p(s[i]) ensures k + 1 <= i < |s| {
        SortedPair(s, i, k);
      }
      CountWindow(p, s, k + 1, |s|);
    }
  }

  lemma {:induction false} CountAll<T>(p: T -> bool, s: seq<T>)
    requires forall x :: x in s ==> p(x)
    ensures Count(p, s) == |s|
  {
    if s != [] {
      CountAll(p, s[1..]);
    }
  }

  /** Bounds of all values are bounds of their median. */
  lemma MedianIsBetween(values: seq<real>, lo: real, hi: real)
    requires values != [] && forall v :: v in values ==> lo <= v <= hi
    ensures lo <= MedianOf(values) <= hi
  {
    CountAll(Inside(lo, hi), values);
    MedianFollowsMajority(values, lo, hi);
  }

  predicate IsAffine(f: real -> real, a: real, b: real, x: real) { f(x) == a * x + b }

  lemma MulKeepsOrder(a: real, x: real, y: real)
    requires a > 0.0
    ensures x <= y <==> a * x <= a * y
  {
    if x < y {
      assert a * (y - x) > 0.0;
    } else if y < x {
      assert a * (x - y) > 0.0;
    }
  }

  lemma MeanIsAffine(f: real -> real, a: real, b: real, x: real, y: real)
    requires forall v :: IsAffine(f, a, b, v)
    ensures f((x + y) / 2.0) == (f(x) + f(y)) / 2.0
  {
    assert IsAffine(f, a, b, x) && IsAffine(f, a, b, y) && IsAffine(f, a, b, (x + y) / 2.0);
    assert a * ((x + y) / 2.0) == (a * x + a * y) / 2.0;
  }

  lemma MiddleIsAffine(s: seq<real>, f: real -> real, a: real, b: real)
    requires s != [] && forall v :: IsAffine(f, a, b, v)
    ensures Median(MapSeq(f, s)) == f(Median(s))
  {
    if |s| % 2 == 0 {
      MeanIsAffine(f, a, b, s[|s| / 2 - 1], s[|s| / 2]);
    }
  }

  lemma AffineKeepsOrder(f: real -> real, a: real, b: real, x: real, y: real)
    requires a > 0.0 && forall v :: IsAffine(f, a, b, v)
    ensures RealLe(x, y) <==> RealLe(f(x), f(y))
  {
    assert IsAffine(f, a, b, x) && IsAffine(f, a, b, y);
    MulKeepsOrder(a, x, y);
  }

  /** The median follows a change of unit and origin. */
  lemma MedianIsAffine(values: seq<real>, f: real -> real, a: real, b: real)
    requires values != [] && a > 0.0 && forall x :: IsAffine(f, a, b, x)
    ensures MapSeq(f, values) != [] && MedianOf(MapSeq(f, values)) == f(MedianOf(values))
  {
    forall x, y ensures RealLe(x, y) <==> RealLe(f(x), f(y)) {
      AffineKeepsOrder(f, a, b, x, y);
    }
    SortOfMap(RealLe, RealLe, f, values);
    SortKeepsElements(RealLe, values);
    MiddleIsAffine(Sort(RealLe, values), f, a, b);
  }
}
