/** The names of stored host backups, and what pruning reads off them
    (`app/hostbackup.py`). */
module BackupNames {
  import opened Calendar
  import opened Sorting
  import opened Text

  const PREFIX := "pve-backup-"
  const PLAIN := ".tar.gz"
  const WITH_PRIV := "-withpriv.tar.gz"

  /** Decimal digits of `n`, padded with zeros to `width`; higher digits are dropped. */
  function Padded(n: nat, width: nat): (s: string)
    ensures |s| == width && AllDigits(s)
  {
    if width == 0 then [] else Padded(n / 10, width - 1) + [DigitChar(n % 10)]
  }

  function Suffix(priv: bool): string { if priv then WITH_PRIV else PLAIN }

  /** The name `create_backup` gives to an archive. */
  function NameOf(c: Civil, priv: bool): string
    requires Exists(c)
  {
    PREFIX + (Padded(DateDigits(c), 8) + (['-'] + (Padded(TimeDigits(c), 6) + Suffix(priv))))
  }

  /** The digits of the name are where `_FILE_TS_RE` looks for them. */
  predicate HasStamp(name: string) {
    && |name| >= 26 && name[..11] == PREFIX
    && AllDigits(name[11..19]) && name[19] == '-' && AllDigits(name[20..26])
  }

  /** `is_valid_backup_name` */
  predicate IsValidName(name: string) {
    HasStamp(name) && (name[26..] == PLAIN || name[26..] == WITH_PRIV)
  }

  function CivilOf(date: nat, time: nat): Civil {
    Civil(date / 10000, date / 100 % 100, date % 100, time / 10000, time / 100 % 100, time % 100)
  }

  /** `backup_filename_dt` */
  function StampOf(name: string): (r: Option<Civil>)
    ensures r.Some? ==> Exists(r.value)
  {
    if !HasStamp(name) then None
    else
      var c := CivilOf(NumberOf(name[11..19]), NumberOf(name[20..26]));
      if Exists(c) then Some(c) else None
  }

  /** A valid name whose digits are a date and time that exists. */
  predicate IsDated(name: string) { IsValidName(name) && StampOf(name).Some? }

  function StampIn(name: string): (c: Civil)
    requires IsDated(name)
    ensures Exists(c)
  {
    StampOf(name).value
  }

  function ValidReader(): string -> Option<string> { name => if IsValidName(name) then Some(name) else None }

  /** The valid names, oldest first. */
  function Ordered(names: seq<string>): seq<string> { Sort(StringLe, Collect(ValidReader(), names)) }

  /** `select_prunable` */
  function SelectPrunable(names: seq<string>, keep: int): seq<string> {
    var valid := Ordered(names);
    if keep <= 0 then valid
    else if |valid| <= keep then []
    else valid[..|valid| - keep]
  }

  /** What is read off the last item that can be read. */
  function LastRead<T>(read: string -> Option<T>, items: seq<string>): Option<T> {
    if items == [] then None
    else if read(items[|items| - 1]).Some? then read(items[|items| - 1])
    else LastRead(read, items[..|items| - 1])
  }

  /** `_newest_backup_dt` */
  function NewestStamp(names: seq<string>): (r: Option<Civil>)
    ensures r.Some? ==> Exists(r.value)
  {
    LastReadIsRead(StampOf, Ordered(names));
    LastRead(StampOf, Ordered(names))
  }

  lemma {:induction false} LastReadIsRead<T>(read: string -> Option<T>, items: seq<string>)
    ensures LastRead(read, items).Some? ==> exists i :: 0 <= i < |items| && read(items[i]) == LastRead(read, items)
  {
    if items != [] && read(items[|items| - 1]).None? {
      LastReadIsRead(read, items[..|items| - 1]);
    }
  }

  lemma {:induction false} LastReadAt<T>(read: string -> Option<T>, items: seq<string>, value: T)
    requires items != [] && read(items[|items| - 1]) == Some(value)
    ensures LastRead(read, items) == Some(value)
  {
  }

  // --------------------------------------------------- a name and its time stamp

  lemma {:induction false} NumberOfPadded(n: nat, width: nat, bound: nat)
    requires n < bound && bound == Power(width)
    ensures NumberOf(Padded(n, width)) == n
  {
    if width > 0 {
      var s := Padded(n, width);
      NumberOfPadded(n / 10, width - 1, Power(width - 1));
      assert s[..|s| - 1] == Padded(n / 10, width - 1);
    }
  }

  function Power(width: nat): nat { if width == 0 then 1 else 10 * Power(width - 1) }

  lemma PowersOfTen()
    ensures Power(6) == 1000000 && Power(8) == 100000000
  {
    assert Power(4) == 10000;
  }

  lemma DigitsFit(c: Civil)
    requires Exists(c)
    ensures 0 <= DateDigits(c) < Power(8) && 0 <= TimeDigits(c) < Power(6)
  {
    PowersOfTen();
  }

  lemma GroupsComeApart(y: int, m: int, d: int)
    requires 0 <= m < 100 && 0 <= d < 100
    ensures var n := 10000 * y + 100 * m + d; n / 10000 == y && n / 100 % 100 == m && n % 100 == d
  {
    assert (10000 * y + 100 * m + d) / 100 == 100 * y + m;
  }

  lemma DigitsGiveCivil(c: Civil)
    requires Exists(c)
    ensures DateDigits(c) >= 0 && TimeDigits(c) >= 0 && CivilOf(DateDigits(c), TimeDigits(c)) == c
  {
    GroupsComeApart(c.year, c.month, c.day);
    GroupsComeApart(c.hour, c.minute, c.second);
  }

  lemma PartsOfName(prefix: string, date: string, time: string, suffix: string)
    requires |prefix| == 11 && |date| == 8 && |time| == 6
    ensures var name := prefix + (date + (['-'] + (time + suffix)));
            && |name| >= 26 && name[..11] == prefix && name[11..19] == date && name[19] == '-'
            && name[20..26] == time && name[26..] == suffix
  {
    var name := prefix + (date + (['-'] + (time + suffix)));
    assert name[11..] == date + (['-'] + (time + suffix));
    assert name[19..] == ['-'] + (time + suffix);
    assert name[20..] == time + suffix;
  }

  /** Every name the tool gives is valid and carries the time it was given at. */
  lemma NameKeepsStamp(c: Civil, priv: bool)
    requires Exists(c)
    ensures IsValidName(NameOf(c, priv)) && StampOf(NameOf(c, priv)) == Some(c)
  {
    DigitsFit(c);
    DigitsGiveCivil(c);
    PartsOfName(PREFIX, Padded(DateDigits(c), 8), Padded(TimeDigits(c), 6), Suffix(priv));
    NumberOfPadded(DateDigits(c), 8, Power(8));
    NumberOfPadded(TimeDigits(c), 6, Power(6));
  }

  lemma DigitOfValue(c: char)
    requires IsDigit(c)
    ensures DigitChar(DigitValue(c)) == c
  {
  }

  lemma {:induction false} PaddedOfNumber(s: string)
    requires AllDigits(s)
    ensures Padded(NumberOf(s), |s|) == s
  {
    if s != [] {
      var n := |s| - 1;
      PaddedOfNumber(s[..n]);
      OneMoreDigit(s, NumberOf(s), NumberOf(s[..n]));
    }
  }

  lemma OneMoreDigit(s: string, n: nat, rest: nat)
    requires s != [] && IsDigit(s[|s| - 1]) && n == 10 * rest + DigitValue(s[|s| - 1])
    requires Padded(rest, |s| - 1) == s[..|s| - 1]
    ensures Padded(n, |s|) == s
  {
    var c := s[|s| - 1];
    LastDigit(rest, DigitValue(c));
    DigitOfValue(c);
    assert s == s[..|s| - 1] + [c];
  }

  lemma LastDigit(n: nat, d: nat)
    requires d < 10
    ensures (10 * n + d) / 10 == n && (10 * n + d) % 10 == d
  {
  }

  lemma GroupsFit(n: nat)
    ensures 10000 * (n / 10000) + 100 * (n / 100 % 100) + n % 100 == n
  {
    assert n / 10000 == n / 100 / 100;
  }

  lemma NameFromParts(name: string)
    requires |name| >= 26
    ensures name == name[..11] + (name[11..19] + ([name[19]] + (name[20..26] + name[26..])))
  {
  }

  /** Every dated name is the one the tool gives at the time it carries. */
  lemma DatedIsSpelled(name: string)
    requires IsDated(name)
    ensures name == NameOf(StampIn(name), name[26..] == WITH_PRIV)
  {
    NameFromParts(name);
    PaddedOfNumber(name[11..19]);
    PaddedOfNumber(name[20..26]);
    CivilGivesDigits(NumberOf(name[11..19]), NumberOf(name[20..26]));
  }

  lemma CivilGivesDigits(date: nat, time: nat)
    ensures DateDigits(CivilOf(date, time)) == date && TimeDigits(CivilOf(date, time)) == time
  {
    GroupsFit(date);
    GroupsFit(time);
  }

  // ------------------------------------------------- names sort in order of time

  lemma {:induction false} CommonPrefix(p: string, s: string, t: string)
    ensures StringLe(p + s, p + t) <==> StringLe(s, t)
  {
    if p == [] {
      assert p + s == s && p + t == t;
    } else {
      assert (p + s)[1..] == p[1..] + s && (p + t)[1..] == p[1..] + t;
      CommonPrefix(p[1..], s, t);
    }
  }

  lemma {:induction false} OneCharacter(c: char, d: char, s: string, t: string)
    ensures StringLe([c] + s, [d] + t) <==> c < d || (c == d && StringLe(s, t))
  {
    assert ([c] + s)[1..] == s && ([d] + t)[1..] == t;
  }

  lemma DigitCharsIncrease(a: nat, b: nat)
    requires a < 10 && b < 10
    ensures DigitChar(a) < DigitChar(b) <==> a < b
    ensures DigitChar(a) == DigitChar(b) <==> a == b
  {
  }

  /** Padded numbers compare as the numbers do. */
  lemma {:induction false} PaddedOrder(a: nat, b: nat, width: nat, s: string, t: string)
    requires a < Power(width) && b < Power(width)
    ensures StringLe(Padded(a, width) + s, Padded(b, width) + t) <==> a < b || (a == b && StringLe(s, t))
  {
    if width == 0 {
      assert Padded(a, 0) + s == s && Padded(b, 0) + t == t;
    } else {
      var c, d := DigitChar(a % 10), DigitChar(b % 10);
      assert Padded(a, width) + s == Padded(a / 10, width - 1) + ([c] + s);
      assert Padded(b, width) + t == Padded(b / 10, width - 1) + ([d] + t);
      PaddedOrder(a / 10, b / 10, width - 1, [c] + s, [d] + t);
      OneCharacter(c, d, s, t);
      DigitCharsIncrease(a % 10, b % 10);
    }
  }

  lemma SuffixOrder(p: bool, q: bool)
    ensures StringLe(Suffix(p), Suffix(q)) <==> p || !q
  {
    assert Suffix(true)[0] == '-' && Suffix(false)[0] == '.';
    if p == q {
      StringLeTotal(Suffix(p), Suffix(q));
    }
  }

  /** Sorting names sorts backups by the time they were made; of two made in the same
      second the one with the secrets comes first. */
  lemma NamesOrderTime(a: Civil, p: bool, b: Civil, q: bool)
    requires Exists(a) && Exists(b)
    ensures StringLe(NameOf(a, p), NameOf(b, q)) <==> Seconds(a) < Seconds(b) || (a == b && (p || !q))
  {
    DigitsFit(a);
    DigitsFit(b);
    SpelledOrder(DateDigits(a), TimeDigits(a), Suffix(p), DateDigits(b), TimeDigits(b), Suffix(q));
    SuffixOrder(p, q);
    DigitsOrderTime(a, b);
    SameDigitsSameTimes(a, b);
  }

  lemma SameDigitsSameTimes(a: Civil, b: Civil)
    requires Exists(a) && Exists(b)
    ensures DateDigits(a) == DateDigits(b) && TimeDigits(a) == TimeDigits(b) <==> a == b
  {
    if DateDigits(a) == DateDigits(b) {
      SameDigitsSameTime(a, b);
    }
  }

  /** Names compare by date, then by time, then by what follows. */
  lemma {:induction false} SpelledOrder(d: nat, t: nat, s: string, d': nat, t': nat, s': string)
    requires d < Power(8) && d' < Power(8) && t < Power(6) && t' < Power(6)
    ensures StringLe(PREFIX + (Padded(d, 8) + (['-'] + (Padded(t, 6) + s))),
                     PREFIX + (Padded(d', 8) + (['-'] + (Padded(t', 6) + s'))))
            <==> d < d' || (d == d' && (t < t' || (t == t' && StringLe(s, s'))))
  {
    CommonPrefix(PREFIX, Padded(d, 8) + (['-'] + (Padded(t, 6) + s)), Padded(d', 8) + (['-'] + (Padded(t', 6) + s')));
    PaddedOrder(d, d', 8, ['-'] + (Padded(t, 6) + s), ['-'] + (Padded(t', 6) + s'));
    OneCharacter('-', '-', Padded(t, 6) + s, Padded(t', 6) + s');
    PaddedOrder(t, t', 6, s, s');
  }

  // ------------------------------------------------------------------- pruning

  lemma OrderedIsSorted(names: seq<string>)
    ensures SortedBy(StringLe, Ordered(names))
    ensures forall n :: n in Ordered(names) <==> n in names && IsValidName(n)
  {
    StringLeOrders();
    var valid := Collect(ValidReader(), names);
    SortIsSorted(StringLe, valid);
    SortKeepsElements(StringLe, valid);
    forall n ensures n in Ordered(names) <==> n in names && IsValidName(n) {
      CollectMember(ValidReader(), names, n);
      if n in names && IsValidName(n) {
        var i :| 0 <= i < |names| && names[i] == n;
        assert ValidReader()(names[i]) == Some(n);
      }
    }
  }

  lemma {:induction false} CollectDistinct(names: seq<string>)
    requires Distinct(names)
    ensures Distinct(Collect(ValidReader(), names))
  {
    if names != [] {
      var n := |names| - 1;
      CollectDistinct(names[..n]);
      CollectMember(ValidReader(), names[..n], names[n]);
    }
  }

  lemma OrderedIsDistinct(names: seq<string>)
    requires Distinct(names)
    ensures Distinct(Ordered(names))
  {
    CollectDistinct(names);
    SortDistinct(StringLe, Collect(ValidReader(), names));
  }

  /** What is left after deleting. */
  function Without(names: seq<string>, gone: seq<string>): seq<string> {
    Collect(LeftReader(gone), names)
  }

  function LeftReader(gone: seq<string>): string -> Option<string> { n => if n in gone then None else Some(n) }

  lemma WithoutMembers(names: seq<string>, gone: seq<string>)
    ensures forall n :: n in Without(names, gone) <==> n in names && n !in gone
  {
    forall n ensures n in Without(names, gone) <==> n in names && n !in gone {
      CollectMember(LeftReader(gone), names, n);
      if n in names && n !in gone {
        var i :| 0 <= i < |names| && names[i] == n;
        assert LeftReader(gone)(names[i]) == Some(n);
      }
    }
  }

  lemma {:induction false} WithoutDistinct(names: seq<string>, gone: seq<string>)
    requires Distinct(names)
    ensures Distinct(Without(names, gone))
  {
    if names != [] {
      var n := |names| - 1;
      WithoutDistinct(names[..n], gone);
      CollectMember(LeftReader(gone), names[..n], names[n]);
    }
  }

  /** The last `keep` of the names. */
  function Kept(ordered: seq<string>, keep: int): seq<string> {
    if keep <= 0 then [] else if |ordered| <= keep then ordered else ordered[|ordered| - keep..]
  }

  /** Deleting the first backups in order leaves the others in order. */
  lemma DeletingFirst(names: seq<string>, gone: seq<string>, kept: seq<string>)
    requires Distinct(names) && Ordered(names) == gone + kept
    ensures Ordered(Without(names, gone)) == kept
  {
    var left := Without(names, gone);
    OrderedIsSorted(names);
    OrderedIsDistinct(names);
    WithoutMembers(names, gone);
    WithoutDistinct(names, gone);
    OrderedIsSorted(left);
    OrderedIsDistinct(left);
    forall n ensures n in Ordered(left) <==> n in kept {
      SeamOfDistinct(gone, kept, n);
    }
    PartIsSorted(gone, kept);
    SameSortedSet(Ordered(left), kept);
  }

  lemma PartIsSorted(a: seq<string>, b: seq<string>)
    requires SortedBy(StringLe, a + b) && Distinct(a + b)
    ensures SortedBy(StringLe, b) && Distinct(b)
  {
    assert b == (a + b)[|a|..];
  }

  lemma PrunableIsFirst(names: seq<string>, keep: int)
    ensures Ordered(names) == SelectPrunable(names, keep) + Kept(Ordered(names), keep)
  {
  }

  /** Pruning leaves exactly the newest `keep` backups and everything that is not a backup. */
  lemma PruneKeepsNewest(names: seq<string>, keep: int)
    requires Distinct(names)
    ensures Ordered(Without(names, SelectPrunable(names, keep))) == Kept(Ordered(names), keep)
    ensures forall n :: !IsValidName(n) ==> (n in Without(names, SelectPrunable(names, keep)) <==> n in names)
  {
    PrunableIsFirst(names, keep);
    DeletingFirst(names, SelectPrunable(names, keep), Kept(Ordered(names), keep));
    WithoutMembers(names, SelectPrunable(names, keep));
    OrderedIsSorted(names);
    assert forall n :: n in SelectPrunable(names, keep) ==> n in Ordered(names);
  }

  lemma SeamOfDistinct(a: seq<string>, b: seq<string>, n: string)
    requires Distinct(a + b)
    ensures n in a + b && n !in a <==> n in b
  {
    assert forall i :: 0 <= i < |a| ==> a[i] == (a + b)[i];
    assert forall j :: 0 <= j < |b| ==> b[j] == (a + b)[|a| + j];
  }

  lemma SameSortedSet(s: seq<string>, t: seq<string>)
    requires SortedBy(StringLe, s) && SortedBy(StringLe, t) && Distinct(s) && Distinct(t)
    requires forall n :: n in s <==> n in t
    ensures s == t
  {
    DistinctIsMultiplicity(s);
    DistinctIsMultiplicity(t);
    forall n ensures multiset(s)[n] == multiset(t)[n] {
      assert n in multiset(s) <==> n in s;
      assert n in multiset(t) <==> n in t;
    }
    assert multiset(s) == multiset(t);
    forall x, y | StringLe(x, y) && StringLe(y, x) ensures x == y {
      StringLeAntisymmetric(x, y);
    }
    SortedIsUnique(StringLe, s, t);
  }

  // ----------------------------------------------------------- the newest backup

  /** Every stored backup carries a time, and none a time after `now`. */
  ghost predicate MadeBy(names: seq<string>, now: Civil) {
    forall n :: n in names && IsValidName(n) ==> IsMade(n, now)
  }

  predicate IsMade(name: string, now: Civil) {
    IsDated(name) && Seconds(StampIn(name)) <= Seconds(now)
  }

  /** Of two names in order the second is not older. */
  lemma {:induction false} DatedOrder(a: string, b: string)
    requires IsDated(a) && IsDated(b)
    ensures StringLe(a, b) ==> Seconds(StampIn(a)) <= Seconds(StampIn(b))
    ensures Seconds(StampIn(a)) < Seconds(StampIn(b)) ==> StringLe(a, b)
  {
    DatedIsSpelled(a);
    DatedIsSpelled(b);
    NamesOrderTime(StampIn(a), a[26..] == WITH_PRIV, StampIn(b), b[26..] == WITH_PRIV);
  }

  /** The newest stamp is that of the last backup in order. */
  lemma LastIsMade(names: seq<string>, now: Civil)
    requires MadeBy(names, now) && Ordered(names) != []
    ensures var last := Ordered(names)[|Ordered(names)| - 1];
            last in names && IsMade(last, now) && NewestStamp(names) == Some(StampIn(last))
  {
    OrderedIsSorted(names);
    var last := Ordered(names)[|Ordered(names)| - 1];
    assert last in Ordered(names);
    LastReadAt(StampOf, Ordered(names), StampIn(last));
  }

  /** No stored backup is newer than the newest stamp. */
  lemma NewestIsLatest(names: seq<string>, now: Civil, n: string)
    requires MadeBy(names, now) && n in names && IsValidName(n)
    ensures IsDated(n) && NewestStamp(names).Some?
    ensures Seconds(StampIn(n)) <= Seconds(NewestStamp(names).value) <= Seconds(now)
  {
    OrderedIsSorted(names);
    assert n in Ordered(names) && IsMade(n, now);
    LastIsMade(names, now);
    LastIsGreatest(Ordered(names), n);
    DatedOrder(n, Ordered(names)[|Ordered(names)| - 1]);
  }

  lemma {:induction false} LastIsGreatest(valid: seq<string>, n: string)
    requires SortedBy(StringLe, valid) && n in valid
    ensures StringLe(n, valid[|valid| - 1])
  {
    StringLeTotal(n, n);
  }
}
