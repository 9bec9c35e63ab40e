/** The string operations of Python that the parsers are written with. */
module Text {

  datatype Option<+T> = None | Some(value: T) {
    function GetOr(default: T): T { if Some? then value else default }
  }

  function MapOption<T, U>(m: T -> U, o: Option<T>): Option<U> {
    match o case None => None case Some(x) => Some(m(x))
  }

  /** `m.get(k)` */
  function Fetch<K, V>(m: map<K, V>, k: K): Option<V> { if k in m then Some(m[k]) else None }

  /** An optional element as a list of none or one. */
  function Maybe<T>(o: Option<T>): seq<T> {
    match o case None => [] case Some(x) => [x]
  }

  /** The loop `for x in items: if f(x): out.append(f(x))`. */
  function Collect<T, U>(f: T -> Option<U>, items: seq<T>): seq<U> {
    if items == [] then []
    else
      var n := |items| - 1;
      Collect(f, items[..n]) + Maybe(f(items[n]))
  }

  lemma CollectNext<T, U>(f: T -> Option<U>, items: seq<T>, i: nat)
    requires i < |items|
    ensures Collect(f, items[..i + 1]) == Collect(f, items[..i]) + Maybe(f(items[i]))
  {
    assert items[..i + 1][..i] == items[..i];
  }

  lemma CollectOne<T, U>(f: T -> Option<U>, x: T)
    ensures Collect(f, [x]) == Maybe(f(x))
  {
    assert [x][..0] == [];
  }

  lemma {:induction false} CollectConcat<T, U>(f: T -> Option<U>, a: seq<T>, b: seq<T>)
    ensures Collect(f, a + b) == Collect(f, a) + Collect(f, b)
  {
    if b == [] {
      assert a + b == a;
    } else {
      var n := |b| - 1;
      assert (a + b)[..|a + b| - 1] == a + b[..n];
      CollectConcat(f, a, b[..n]);
    }
  }

  lemma {:induction false} CollectAll<T, U>(f: T -> Option<U>, items: seq<T>)
    requires forall i :: 0 <= i < |items| ==> f(items[i]).Some?
    ensures |Collect(f, items)| == |items|
    ensures forall i :: 0 <= i < |items| ==> f(items[i]) == Some(Collect(f, items)[i])
  {
    if items != [] {
      var n := |items| - 1;
      assert forall i :: 0 <= i < n ==> items[..n][i] == items[i];
      CollectAll(f, items[..n]);
    }
  }

  lemma {:induction false} CollectSame<T, U>(f: T -> Option<U>, g: T -> Option<U>, items: seq<T>)
    requires forall i :: 0 <= i < |items| ==> f(items[i]) == g(items[i])
    ensures Collect(f, items) == Collect(g, items)
  {
    if items != [] {
      var n := |items| - 1;
      assert forall i :: 0 <= i < n ==> items[..n][i] == items[i];
      CollectSame(f, g, items[..n]);
    }
  }

  lemma {:induction false} CollectPrefix<T, U>(f: T -> Option<U>, a: seq<T>, b: seq<T>)
    requires a <= b
    ensures Collect(f, a) <= Collect(f, b)
  {
    assert b == a + b[|a|..];
    CollectConcat(f, a, b[|a|..]);
  }

  lemma {:induction false} CollectMember<T, U>(f: T -> Option<U>, items: seq<T>, y: U)
    ensures y in Collect(f, items) <==> exists i :: 0 <= i < |items| && f(items[i]) == Some(y)
  {
    if items != [] {
      var n := |items| - 1;
      CollectMember(f, items[..n], y);
      assert forall i :: 0 <= i < n ==> items[..n][i] == items[i];
    }
  }

  function MapSeq<T, U>(m: T -> U, items: seq<T>): seq<U> {
    seq(|items|, i requires 0 <= i < |items| => m(items[i]))
  }

  /** When `g` rewrites every item so that `f` reads the `m`-image of what it read
      before, the readings of the rewritten list are the images of the readings. */
  lemma {:induction false} CollectCommutes<T, U>(f: T -> Option<U>, g: T -> Option<T>, m: U -> U, items: seq<T>)
    requires forall i :: 0 <= i < |items| ==> ReadsImage(f, g(items[i]), m, items[i])
    ensures Collect(f, Collect(g, items)) == MapSeq(m, Collect(f, items))
  {
    if items != [] {
      var n := |items| - 1;
      assert forall i :: 0 <= i < n ==> items[..n][i] == items[i];
      CollectCommutes(f, g, m, items[..n]);
      CollectConcat(f, Collect(g, items[..n]), Maybe(g(items[n])));
      ImageOfOne(f, g(items[n]), m, items[n]);
      MapSeqConcat(m, Collect(f, items[..n]), Maybe(f(items[n])));
    }
  }

  lemma ImageOfOne<T, U>(f: T -> Option<U>, rewritten: Option<T>, m: U -> U, x: T)
    requires ReadsImage(f, rewritten, m, x)
    ensures Collect(f, Maybe(rewritten)) == MapSeq(m, Maybe(f(x)))
  {
    if rewritten.Some? {
      CollectOne(f, rewritten.value);
    }
  }

  lemma MapSeqConcat<T, U>(m: T -> U, a: seq<T>, b: seq<T>)
    ensures MapSeq(m, a + b) == MapSeq(m, a) + MapSeq(m, b)
  {
  }

  ghost predicate ReadsImage<T, U>(f: T -> Option<U>, rewritten: Option<T>, m: U -> U, x: T) {
    match rewritten
    case None => f(x).None?
    case Some(y) => f(y) == match f(x) case None => None case Some(u) => Some(m(u))
  }

  // ------------------------------------------------------------- characters

  predicate IsDigit(c: char) { '0' <= c <= '9' }

  predicate IsLower(c: char) { 'a' <= c <= 'z' }

  /** A line boundary of `str.splitlines`. */
  predicate IsBreak(c: char) {
    '\n' <= c <= '\r' || '\U{1C}' <= c <= '\U{1E}' || c == '\U{85}' || '\U{2028}' <= c <= '\U{2029}'
  }

  /** `str.isspace`, which is also `\s` in a text pattern. */
  predicate IsSpace(c: char) {
    || IsBreak(c) || c == ' ' || c == '\t' || c == '\U{1F}' || c == '\U{A0}' || c == '\U{1680}'
    || '\U{2000}' <= c <= '\U{200A}' || c == '\U{202F}' || c == '\U{205F}' || c == '\U{3000}'
  }

  /** The characters by their codes. */
  lemma Codes(c: char)
    ensures IsDigit(c) <==> 48 <= c as int <= 57
    ensures IsLower(c) <==> 97 <= c as int <= 122
    ensures IsBreak(c) <==>
      10 <= c as int <= 13 || 28 <= c as int <= 30 || c as int == 133 || 8232 <= c as int <= 8233
    ensures IsSpace(c) <==>
      || 9 <= c as int <= 13 || 28 <= c as int <= 32 || c as int in {133, 160, 5760, 8239, 8287, 12288}
      || 8192 <= c as int <= 8202 || 8232 <= c as int <= 8233
  {
  }

  predicate AllDigits(s: string) { forall i :: 0 <= i < |s| ==> IsDigit(s[i]) }

  predicate Numeric(s: string) { s != [] && AllDigits(s) }

  predicate NoBreaks(s: string) { forall i :: 0 <= i < |s| ==> !IsBreak(s[i]) }

  predicate NoSpaces(s: string) { forall i :: 0 <= i < |s| ==> !IsSpace(s[i]) }

  // --------------------------------------------------------------- stripping

  function LStrip(s: string): (r: string)
    ensures |r| <= |s|
  {
    if s != [] && IsSpace(s[0]) then LStrip(s[1..]) else s
  }

  function RStrip(s: string): (r: string)
    ensures |r| <= |s|
  {
    if s != [] && IsSpace(s[|s| - 1]) then RStrip(s[..|s| - 1]) else s
  }

  function Strip(s: string): string { RStrip(LStrip(s)) }

  /** Neither end is a space. */
  predicate Trim(s: string) { s == [] || (!IsSpace(s[0]) && !IsSpace(s[|s| - 1])) }

  lemma {:induction false} StripOfTrim(s: string)
    requires Trim(s)
    ensures LStrip(s) == s && RStrip(s) == s && Strip(s) == s
  {
  }

  lemma {:induction false} LStripIsSuffix(s: string)
    ensures var n := |s| - |LStrip(s)|; LStrip(s) == s[n..] && forall j :: 0 <= j < n ==> IsSpace(s[j])
    ensures LStrip(s) == [] || !IsSpace(LStrip(s)[0])
  {
    if s != [] && IsSpace(s[0]) {
      LStripIsSuffix(s[1..]);
      assert forall j :: 1 <= j < |s| ==> s[j] == s[1..][j - 1];
    }
  }

  lemma {:induction false} RStripIsPrefix(s: string)
    ensures var n := |RStrip(s)|; RStrip(s) == s[..n] && forall j :: n <= j < |s| ==> IsSpace(s[j])
    ensures RStrip(s) == [] || !IsSpace(RStrip(s)[|RStrip(s)| - 1])
  {
    if s != [] && IsSpace(s[|s| - 1]) {
      RStripIsPrefix(s[..|s| - 1]);
    }
  }

  lemma StripIsTrim(s: string)
    ensures Trim(Strip(s))
  {
    LStripIsSuffix(s);
    RStripIsPrefix(LStrip(s));
  }

  // --------------------------------------------------------------- searching

  /** Index of the first `c`, or the length when there is none. */
  function Find(s: string, c: char): (i: nat)
    ensures i <= |s|
    ensures i < |s| ==> s[i] == c
    ensures forall j :: 0 <= j < i ==> s[j] != c
  {
    if s == [] || s[0] == c then 0 else 1 + Find(s[1..], c)
  }

  /** The text before the first `c`; all of it when there is none. */
  function Before(s: string, c: char): string { s[..Find(s, c)] }

  /** The text after the first `c`; empty when there is none. */
  function After(s: string, c: char): string {
    if Find(s, c) < |s| then s[Find(s, c) + 1..] else []
  }

  lemma {:induction false} FindAt(s: string, c: char, i: nat)
    requires i < |s| && s[i] == c && forall j :: 0 <= j < i ==> s[j] != c
    ensures Find(s, c) == i
  {
  }

  lemma {:induction false} FindMissing(s: string, c: char)
    requires c !in s
    ensures Find(s, c) == |s|
  {
  }

  /** The text is cut at its first `c`. */
  lemma {:induction false} CutAt(a: string, c: char, b: string, s: string)
    requires s == a + [c] + b && c !in a
    ensures Find(s, c) == |a| && Before(s, c) == a && After(s, c) == b
  {
    FindAt(s, c, |a|);
    assert s[..|a|] == a && s[|a| + 1..] == b;
  }

  predicate HasAt(s: string, p: string, i: nat) { i + |p| <= |s| && s[i..i + |p|] == p }

  predicate Contains(s: string, p: string) { exists i :: 0 <= i <= |s| && HasAt(s, p, i) }

  lemma PartOfPart<T>(s: seq<T>, i: nat, j: nat, a: nat, b: nat)
    requires i <= j <= |s| && a <= b <= j - i
    ensures s[i..j][a..b] == s[i + a..i + b]
  {
    var part := s[i..j];
    assert forall k :: 0 <= k < b - a ==> part[a..b][k] == part[a + k] == s[i + (a + k)];
  }

  lemma ContainsInPart(s: string, p: string, i: nat, j: nat)
    requires i <= j <= |s| && !Contains(s, p)
    ensures !Contains(s[i..j], p)
  {
    var t := s[i..j];
    forall k | 0 <= k <= |t| ensures !HasAt(t, p, k) {
      if HasAt(t, p, k) {
        PartOfPart(s, i, j, k, k + |p|);
        assert HasAt(s, p, i + k);
      }
    }
  }

  /** `Strip` cuts a part out of the middle. */
  lemma StripIsPart(s: string) returns (i: nat, j: nat)
    ensures i <= j <= |s| && Strip(s) == s[i..j]
  {
    LStripIsSuffix(s);
    RStripIsPrefix(LStrip(s));
    i := |s| - |LStrip(s)|;
    j := i + |Strip(s)|;
    PartOfPart(s, i, |s|, 0, j - i);
  }

  lemma HasAtLeft(a: string, b: string, p: string, i: nat)
    ensures i + |p| <= |a| ==> (HasAt(a + b, p, i) <==> HasAt(a, p, i))
  {
    if i + |p| <= |a| {
      assert (a + b)[i..i + |p|] == a[i..i + |p|];
    }
  }

  lemma HasAtRight(a: string, b: string, p: string, i: nat)
    ensures HasAt(a + b, p, |a| + i) <==> HasAt(b, p, i)
  {
    if i + |p| <= |b| {
      assert (a + b)[|a| + i..|a| + i + |p|] == b[i..i + |p|];
    }
  }

  /** No occurrence of `p` can straddle a seam whose right side starts with a character foreign to `p`. */
  lemma ContainsAcrossSeam(a: string, b: string, p: string)
    requires p != [] && (b == [] || b[0] !in p)
    ensures Contains(a + b, p) <==> Contains(a, p) || Contains(b, p)
  {
    var s := a + b;
    forall i | 0 <= i <= |a| && HasAt(a, p, i) ensures HasAt(s, p, i) {
      HasAtLeft(a, b, p, i);
    }
    forall i | 0 <= i <= |b| && HasAt(b, p, i) ensures HasAt(s, p, |a| + i) {
      HasAtRight(a, b, p, i);
    }
    forall i | 0 <= i <= |s| && HasAt(s, p, i) ensures Contains(a, p) || Contains(b, p) {
      SeamOccurrence(a, b, p, i);
    }
  }

  lemma SeamOccurrence(a: string, b: string, p: string, i: nat)
    requires p != [] && (b == [] || b[0] !in p) && HasAt(a + b, p, i)
    ensures if i >= |a| then HasAt(b, p, i - |a|) else HasAt(a, p, i)
  {
    NoStraddling(a, b, p, i);
    HasAtLeft(a, b, p, i);
    if i >= |a| {
      HasAtRight(a, b, p, i - |a|);
    }
  }

  lemma OccurrenceAt(s: string, p: string, i: nat, k: nat)
    requires HasAt(s, p, i) && k < |p|
    ensures s[i + k] == p[k]
  {
    assert s[i..i + |p|][k] == s[i + k];
  }

  lemma NoStraddling(a: string, b: string, p: string, i: nat)
    requires p != [] && (b == [] || b[0] !in p) && HasAt(a + b, p, i)
    ensures i >= |a| || i + |p| <= |a|
  {
    if 0 < |a| - i < |p| {
      OccurrenceAt(a + b, p, i, |a| - i);
    }
  }

  function Split(s: string, c: char): (r: seq<string>)
    ensures r != []
    decreases |s|
  {
    var i := Find(s, c);
    if i == |s| then [s] else [s[..i]] + Split(s[i + 1..], c)
  }

  lemma {:induction false} SplitCons(head: string, tail: string, c: char)
    requires c !in head
    ensures Split(head + [c] + tail, c) == [head] + Split(tail, c)
  {
    var s := head + [c] + tail;
    forall j | 0 <= j < |head| ensures s[j] != c {
      assert s[j] == head[j];
    }
    FindAt(s, c, |head|);
    assert s[..|head|] == head && s[|head| + 1..] == tail;
  }

  lemma {:induction false} SplitNone(s: string, c: char)
    requires c !in s
    ensures Split(s, c) == [s]
  {
    FindMissing(s, c);
  }

  // ------------------------------------------------------------------- words

  function WordLength(s: string): (n: nat)
    ensures n <= |s|
    ensures forall i :: 0 <= i < n ==> !IsSpace(s[i])
    ensures n < |s| ==> IsSpace(s[n])
  {
    if s == [] || IsSpace(s[0]) then 0 else 1 + WordLength(s[1..])
  }

  /** The runs of non-space characters. */
  function Words(s: string): seq<string>
    decreases |s|
  {
    if s == [] then []
    else if IsSpace(s[0]) then Words(s[1..])
    else [s[..WordLength(s)]] + Words(s[WordLength(s)..])
  }

  lemma {:induction false} WordsCons(head: string, tail: string)
    requires head != [] && NoSpaces(head)
    ensures Words(head + " " + tail) == [head] + Words(tail)
  {
    var s := head + " " + tail;
    assert s[|head|] == ' ';
    WordLengthAt(s, |head|);
    assert s[..|head|] == head && s[|head|..] == " " + tail;
    assert (" " + tail)[1..] == tail;
  }

  lemma {:induction false} WordsOne(word: string)
    requires word != [] && NoSpaces(word)
    ensures Words(word) == [word]
  {
    WordLengthWhole(word);
    assert word[..|word|] == word;
  }

  lemma {:induction false} WordLengthAt(s: string, n: nat)
    requires n < |s| && IsSpace(s[n]) && forall i :: 0 <= i < n ==> !IsSpace(s[i])
    ensures WordLength(s) == n
  {
  }

  lemma {:induction false} WordLengthWhole(s: string)
    requires NoSpaces(s)
    ensures WordLength(s) == |s|
  {
  }

  predicate IsWord(s: string) { s != [] && NoSpaces(s) }

  predicate AllSpaces(s: string) { forall i :: 0 <= i < |s| ==> IsSpace(s[i]) }

  lemma {:induction false} WordsAfterSpaces(pad: string, s: string)
    requires AllSpaces(pad)
    ensures Words(pad + s) == Words(s)
  {
    if pad == [] {
      assert pad + s == s;
    } else {
      assert (pad + s)[1..] == pad[1..] + s;
      WordsAfterSpaces(pad[1..], s);
    }
  }

  // ------------------------------------------------------------------- lines

  /** Length of the line break that starts `s`: carriage return and line feed together are one. */
  function BreakLength(s: string): (n: nat)
    requires s != [] && IsBreak(s[0])
    ensures 1 <= n <= |s|
  {
    if |s| >= 2 && s[0] == '\r' && s[1] == '\n' then 2 else 1
  }

  function FirstBreak(s: string): (i: nat)
    ensures i <= |s|
    ensures i < |s| ==> IsBreak(s[i])
    ensures forall j :: 0 <= j < i ==> !IsBreak(s[j])
  {
    if s == [] || IsBreak(s[0]) then 0 else 1 + FirstBreak(s[1..])
  }

  function SplitLines(s: string): (r: seq<string>)
    ensures forall l :: l in r ==> NoBreaks(l)
    decreases |s|
  {
    if s == [] then []
    else
      var i := FirstBreak(s);
      if i == |s| then [s]
      else [s[..i]] + SplitLines(s[i + BreakLength(s[i..])..])
  }

  /** Every line followed by a line feed. */
  function Unlines(lines: seq<string>): string {
    if lines == [] then [] else lines[0] + ['\n'] + Unlines(lines[1..])
  }

  lemma {:induction false} FirstBreakAt(s: string, i: nat)
    requires i < |s| && IsBreak(s[i]) && forall j :: 0 <= j < i ==> !IsBreak(s[j])
    ensures FirstBreak(s) == i
  {
  }

  lemma {:induction false} SplitLinesCons(head: string, rest: string)
    requires NoBreaks(head)
    ensures SplitLines(head + ['\n'] + rest) == [head] + SplitLines(rest)
  {
    var s := head + ['\n'] + rest;
    var n := |head|;
    forall j | 0 <= j < n ensures !IsBreak(s[j]) {
      assert s[j] == head[j];
    }
    FirstBreakAt(s, n);
    assert s[..n] == head && s[n + 1..] == rest && s[n..][0] == '\n';
  }

  /** Carriage return and line feed end a line together. */
  lemma {:induction false} SplitCarriage(head: string, rest: string)
    requires NoBreaks(head)
    ensures SplitLines(head + ['\r', '\n'] + rest) == [head] + SplitLines(rest)
  {
    var s := head + ['\r', '\n'] + rest;
    assert s[|head|] == '\r' && s[|head| + 1] == '\n';
    FirstBreakAt(s, |head|);
    assert s[..|head|] == head && s[|head| + 2..] == rest && s[|head|..][..2] == ['\r', '\n'];
  }

  lemma {:induction false} SplitUnlines(lines: seq<string>)
    requires forall i :: 0 <= i < |lines| ==> NoBreaks(lines[i])
    ensures SplitLines(Unlines(lines)) == lines
  {
    if lines != [] {
      SplitUnlines(lines[1..]);
      SplitLinesCons(lines[0], Unlines(lines[1..]));
    }
  }

  // ----------------------------------------------------------------- numbers

  function DigitValue(c: char): (d: nat)
    requires IsDigit(c)
    ensures d < 10
  {
    (c - '0') as int
  }

  function DigitChar(d: nat): (c: char)
    requires d < 10
    ensures IsDigit(c) && DigitValue(c) == d
  {
    '0' + d as char
  }

  function NumberOf(s: string): nat
    requires AllDigits(s)
  {
    if s == [] then 0 else 10 * NumberOf(s[..|s| - 1]) + DigitValue(s[|s| - 1])
  }

  function Decimal(n: nat): (s: string)
    ensures Numeric(s)
  {
    if n < 10 then [DigitChar(n)] else Decimal(n / 10) + [DigitChar(n % 10)]
  }

  lemma {:induction false} NumberOfDecimal(n: nat)
    ensures NumberOf(Decimal(n)) == n
  {
    var s := Decimal(n);
    if n < 10 {
      assert s[..0] == [];
    } else {
      NumberOfDecimal(n / 10);
      assert s[..|s| - 1] == Decimal(n / 10);
    }
  }
}
