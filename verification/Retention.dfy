/** The retention of automatic snapshots (`app/autosnap.py`), which is kept nowhere but in
    the command lines of cron files: reading it, and changing it in place. */
module Retention {
  import opened Text

  const KEEP := "--keep"
  const NAME := "zfs-auto-snapshot"
  const LABEL := "--label="

  // --------------------------------------------------------- the option --keep

  predicate StartsWith(s: string, p: string) { |p| <= |s| && s[..|p|] == p }

  predicate IsSeparator(c: char) { c == '=' || IsSpace(c) }

  function SeparatorLength(s: string): (n: nat)
    ensures n <= |s| && (forall i :: 0 <= i < n ==> IsSeparator(s[i]))
    ensures n < |s| ==> !IsSeparator(s[n])
  {
    if s == [] || !IsSeparator(s[0]) then 0 else 1 + SeparatorLength(s[1..])
  }

  function DigitLength(s: string): (n: nat)
    ensures n <= |s| && (forall i :: 0 <= i < n ==> IsDigit(s[i]))
    ensures n < |s| ==> !IsDigit(s[n])
  {
    if s == [] || !IsDigit(s[0]) then 0 else 1 + DigitLength(s[1..])
  }

  /** Where the number starts, when the option starts the text. */
  function NumberAt(s: string): (i: nat)
    requires StartsWith(s, KEEP)
    ensures i <= |s|
  {
    6 + SeparatorLength(s[6..])
  }

  /** `--keep`, at least one separator, at least one digit. */
  predicate StartsOption(s: string) {
    StartsWith(s, KEEP) && NumberAt(s) > 6 && NumberAt(s) < |s| && IsDigit(s[NumberAt(s)])
  }

  function OptionLength(s: string): (n: nat)
    requires StartsOption(s)
    ensures 7 < n <= |s|
  {
    NumberAt(s) + DigitLength(s[NumberAt(s)..])
  }

  /** `_KEEP_RE.search`: the number of the first option. */
  function KeepOf(s: string): Option<nat> {
    if s == [] then None
    else if StartsOption(s) then Some(NumberOf(s[NumberAt(s)..][..DigitLength(s[NumberAt(s)..])]))
    else KeepOf(s[1..])
  }

  /** `_KEEP_RE.sub`: every option is replaced. */
  function ReplaceKeep(s: string, text: string): string
    decreases |s|
  {
    if s == [] then []
    else if StartsOption(s) then text + ReplaceKeep(s[OptionLength(s)..], text)
    else [s[0]] + ReplaceKeep(s[1..], text)
  }

  function OptionText(keep: nat): string { KEEP + (['='] + Decimal(keep)) }

  // ------------------------------------------------------------------- one line

  function WithoutHashes(s: string): (r: string)
    ensures |r| <= |s|
  {
    if s != [] && s[0] == '#' then WithoutHashes(s[1..]) else s
  }

  /** `_is_command_line` */
  predicate IsCommandLine(line: string, level: string) {
    var body := Strip(WithoutHashes(LStrip(line)));
    Contains(body, NAME) && Contains(body, LABEL + level)
  }

  predicate StartsHash(s: string) { s != [] && s[0] == '#' }

  /** `_line_is_commented` */
  predicate IsCommented(line: string) { StartsHash(LStrip(line)) }

  function Indent(line: string): string { line[..|line| - |LStrip(line)|] }

  /** `_set_line_enabled` */
  function SetEnabled(line: string, enabled: bool): string {
    var stripped := LStrip(line);
    if enabled && StartsHash(stripped) then
      var body := stripped[1..];
      Indent(line) + if body != [] && body[0] == ' ' then body[1..] else body
    else if !enabled && !StartsHash(stripped) then Indent(line) + ("# " + stripped)
    else line
  }

  /** The change of one line in `update_level_content`. */
  function EditLine(line: string, level: string, keep: Option<nat>, enabled: Option<bool>): string {
    if !IsCommandLine(line, level) then line
    else
      var new_ := if keep.Some? && KeepOf(line).Some? then ReplaceKeep(line, OptionText(keep.value)) else line;
      if enabled.Some? then SetEnabled(new_, enabled.value) else new_
  }

  function Editor(level: string, keep: Option<nat>, enabled: Option<bool>): string -> string {
    line => EditLine(line, level, keep, enabled)
  }

  // ------------------------------------------------------------------- one file

  function Join(lines: seq<string>): string {
    if lines == [] then []
    else if |lines| == 1 then lines[0]
    else lines[0] + ['\n'] + Join(lines[1..])
  }

  /** `update_level_content` */
  function Updated(content: string, level: string, keep: Option<nat>, enabled: Option<bool>): string {
    Join(MapSeq(Editor(level, keep, enabled), Split(content, '\n')))
  }

  /** The same with assignments into the list of lines. */
  method UpdateLevelContent(content: string, level: string, keep: Option<nat>, enabled: Option<bool>)
    returns (r: string)
    ensures r == Updated(content, level, keep, enabled)
  {
    var lines := Split(content, '\n');
    ghost var start := lines;
    for i := 0 to |lines|
      invariant |lines| == |start|
      invariant forall j :: 0 <= j < i ==> lines[j] == EditLine(start[j], level, keep, enabled)
      invariant forall j :: i <= j < |lines| ==> lines[j] == start[j]
    {
      var line := lines[i];
      if IsCommandLine(line, level) {
        var new_ := line;
        if keep.Some? && KeepOf(new_).Some? {
          new_ := ReplaceKeep(new_, OptionText(keep.value));
        }
        if enabled.Some? {
          new_ := SetEnabled(new_, enabled.value);
        }
        lines := lines[i := new_];
      }
    }
    assert lines == MapSeq(Editor(level, keep, enabled), start);
    r := Join(lines);
  }

  datatype Setting = Setting(keep: Option<nat>, enabled: bool)

  function SettingOf(line: string): Setting { Setting(KeepOf(line), !IsCommented(line)) }

  function FirstWhere(p: string -> bool, lines: seq<string>): (r: Option<string>)
    ensures r.Some? ==> r.value in lines && p(r.value)
    ensures r.None? ==> forall l :: l in lines ==> !p(l)
  {
    if lines == [] then None
    else if p(lines[0]) then Some(lines[0])
    else FirstWhere(p, lines[1..])
  }

  function IsCommand(level: string): string -> bool { l => IsCommandLine(l, level) }

  function IsActive(level: string): string -> bool { l => IsCommandLine(l, level) && !IsCommented(l) }

  /** An active line decides, without one the first that is commented out. */
  function ParsedLines(lines: seq<string>, level: string): Option<Setting> {
    var active := FirstWhere(IsActive(level), lines);
    MapOption(SettingOf, if active.Some? then active else FirstWhere(IsCommand(level), lines))
  }

  /** `parse_level` */
  method ParseLevel(content: string, level: string) returns (r: Option<Setting>)
    ensures r == ParsedLines(SplitLines(content), level)
  {
    var lines := SplitLines(content);
    var candidate: Option<Setting> := None;
    for i := 0 to |lines|
      invariant FirstWhere(IsActive(level), lines) == FirstWhere(IsActive(level), lines[i..])
      invariant candidate.None? ==> FirstWhere(IsCommand(level), lines) == FirstWhere(IsCommand(level), lines[i..])
      invariant candidate.Some? ==> MapOption(SettingOf, FirstWhere(IsCommand(level), lines)) == candidate
    {
      assert lines[i..][1..] == lines[i + 1..];
      var line := lines[i];
      if IsCommandLine(line, level) {
        var entry := SettingOf(line);
        if !IsCommented(line) {
          return Some(entry);
        }
        if candidate.None? {
          candidate := Some(entry);
        }
      }
    }
    r := candidate;
  }

  // ------------------------------------------- replacing the option keeps the rest

  lemma {:induction false} SeparatorsAt(s: string, n: nat)
    requires n < |s| && !IsSeparator(s[n]) && forall i :: 0 <= i < n ==> IsSeparator(s[i])
    ensures SeparatorLength(s) == n
  {
  }

  lemma {:induction false} DigitsAt(s: string, digits: string, rest: string)
    requires s == digits + rest && AllDigits(digits) && (rest == [] || !IsDigit(rest[0]))
    ensures DigitLength(s) == |digits| && s[..DigitLength(s)] == digits
  {
    assert forall i :: 0 <= i < |digits| ==> s[i] == digits[i];
    assert rest != [] ==> s[|digits|] == rest[0];
  }

  /** An option spelled out is found with its number. */
  lemma OptionIsFound(keep: nat, rest: string)
    requires rest == [] || !IsDigit(rest[0])
    ensures var s := OptionText(keep) + rest;
            StartsOption(s) && KeepOf(s) == Some(keep) && OptionLength(s) == |OptionText(keep)|
  {
    NumberOfDecimal(keep);
    DigitsAreFound(Decimal(keep), rest, OptionText(keep) + rest);
  }

  lemma {:induction false} DigitsAreFound(digits: string, rest: string, s: string)
    requires s == KEEP + (['='] + digits) + rest && digits != [] && AllDigits(digits)
    requires rest == [] || !IsDigit(rest[0])
    ensures StartsOption(s) && KeepOf(s) == Some(NumberOf(digits)) && OptionLength(s) == |KEEP + (['='] + digits)|
  {
    assert s[..6] == KEEP;
    assert s[6..] == ['='] + digits + rest && s[6..][1] == digits[0] && !IsSeparator(digits[0]);
    SeparatorsAt(s[6..], 1);
    assert s[7..] == digits + rest && s[7] == digits[0];
    DigitsAt(s[7..], digits, rest);
  }

  /** The characters of an option. */
  predicate OptionChar(c: char) { c == '-' || c == 'k' || c == 'e' || c == 'p' || IsSeparator(c) || IsDigit(c) }

  /** What an option looks like from outside. */
  ghost predicate OptionShape(m: string) {
    && |m| > 7 && m[..6] == KEEP
    && (forall i :: 2 <= i < |m| ==> m[i] != '-') && forall i :: 0 <= i < |m| ==> OptionChar(m[i])
  }

  lemma OptionHasShape(s: string)
    requires StartsOption(s)
    ensures OptionShape(s[..OptionLength(s)])
    ensures OptionLength(s) < |s| ==> !IsDigit(s[OptionLength(s)])
  {
    var n, k := OptionLength(s), NumberAt(s);
    var m := s[..n];
    assert m[..6] == s[..6];
    assert KEEP[0] == '-' && KEEP[1] == '-' && KEEP[2] == 'k' && KEEP[3] == 'e' && KEEP[4] == 'e' && KEEP[5] == 'p';
    forall i | 0 <= i < n ensures OptionChar(m[i]) && (i >= 2 ==> m[i] != '-') {
      if i < 6 {
        assert m[i] == s[..6][i];
      } else if i < k {
        assert m[i] == s[6..][i - 6];
      } else {
        assert m[i] == s[k..][..n - k][i - k];
      }
    }
    if n < |s| {
      assert s[n] == s[k..][n - k];
    }
  }

  lemma OptionTextHasShape(keep: nat)
    ensures OptionShape(OptionText(keep))
  {
    OptionIsFound(keep, []);
    assert OptionText(keep) + [] == OptionText(keep);
    OptionHasShape(OptionText(keep));
    assert OptionText(keep)[..|OptionText(keep)|] == OptionText(keep);
  }

  /** An option cannot reach into a text that begins with two dashes. */
  lemma OptionEndsBeforeDashes(w: string, x: string)
    requires w != [] && |x| >= 2 && x[0] == '-' && x[1] == '-'
    ensures StartsOption(w + x) <==> StartsOption(w)
  {
    var s := w + x;
    assert s[|w|] == '-' && s[|w| + 1] == '-';
    assert KEEP[2] == 'k' && KEEP[3] == 'e' && KEEP[4] == 'e' && KEEP[5] == 'p';
    if StartsWith(s, KEEP) {
      assert forall i :: 0 <= i < 6 ==> s[i] == KEEP[i];
      assert |w| >= 6;
      assert w[..6] == s[..6];
    }
    if StartsWith(w, KEEP) {
      assert s[..6] == w[..6];
      SeparatorsBeforeDash(w[6..], x);
      assert s[6..] == w[6..] + x;
    }
  }

  lemma {:induction false} SeparatorsBeforeDash(w: string, x: string)
    requires x != [] && x[0] == '-'
    ensures SeparatorLength(w + x) == SeparatorLength(w)
  {
    var n := SeparatorLength(w);
    assert forall i :: 0 <= i < n ==> (w + x)[i] == w[i];
    assert (w + x)[n] == if n < |w| then w[n] else '-';
    SeparatorsAt(w + x, n);
  }

  lemma {:induction false} StartOfReplaced(t: string, keep: nat)
    requires t != []
    ensures var r := ReplaceKeep(t, OptionText(keep));
            && r != [] && r[0] == t[0]
            && (StartsOption(t) ==> |r| >= 2 && r[0] == '-' && r[1] == '-' && |t| >= 2 && t[1] == '-')
  {
    if StartsOption(t) {
      OptionHasShape(t);
      OptionTextHasShape(keep);
      ShapeStartsWithDashes(t[..OptionLength(t)]);
      ShapeStartsWithDashes(OptionText(keep));
    }
  }

  lemma ShapeStartsWithDashes(m: string)
    requires OptionShape(m)
    ensures m[0] == '-' && m[1] == '-' && m[2] == 'k'
  {
    assert m[..6][0] == '-' && m[..6][1] == '-' && m[..6][2] == 'k';
  }

  /** Behind `w` the replacement makes no option start that did not start before. */
  lemma {:induction false} ReplacingMakesNoOption(w: string, t: string, keep: nat)
    requires w != []
    ensures StartsOption(w + ReplaceKeep(t, OptionText(keep))) <==> StartsOption(w + t)
    decreases |t|
  {
    var r := ReplaceKeep(t, OptionText(keep));
    if t == [] {
      assert r == t;
    } else if StartsOption(t) {
      StartOfReplaced(t, keep);
      OptionEndsBeforeDashes(w, t);
      OptionEndsBeforeDashes(w, r);
    } else {
      ReplacingMakesNoOption(w + [t[0]], t[1..], keep);
      assert w + [t[0]] + t[1..] == w + t;
      assert w + [t[0]] + ReplaceKeep(t[1..], OptionText(keep)) == w + r;
    }
  }

  /** After replacing, the option that is found has the new number. */
  lemma {:induction false} KeepIsReplaced(s: string, keep: nat)
    requires KeepOf(s).Some?
    ensures KeepOf(ReplaceKeep(s, OptionText(keep))) == Some(keep)
  {
    var text := OptionText(keep);
    var r := ReplaceKeep(s, text);
    if StartsOption(s) {
      var rest := s[OptionLength(s)..];
      OptionHasShape(s);
      if rest != [] {
        StartOfReplaced(rest, keep);
      }
      OptionIsFound(keep, ReplaceKeep(rest, text));
    } else {
      KeepIsReplaced(s[1..], keep);
      ReplacingMakesNoOption([s[0]], s[1..], keep);
      assert [s[0]] + s[1..] == s;
      assert r[1..] == ReplaceKeep(s[1..], text);
    }
  }

  /** Text that no option can overlap: it does not end like one, does not begin inside
      one, and holds none. */
  ghost predicate Distinctive(p: string) {
    && |p| >= 2 && !OptionChar(p[|p| - 1])
    && (!OptionChar(p[0]) || (p[0] == '-' && p[1] == '-'))
    && forall i :: 0 <= i < |p| - 2 && p[i] == '-' && p[i + 1] == '-' ==> p[i + 2] != 'k'
  }

  /** An occurrence of such a text lies before or behind an option. */
  lemma NoOverlap(w: string, m: string, x: string, p: string, i: nat)
    requires OptionShape(m) && Distinctive(p) && HasAt(w + m + x, p, i)
    ensures i + |p| <= |w| || i >= |w| + |m|
  {
    var s := w + m + x;
    ShapeStartsWithDashes(m);
    assert forall j :: 0 <= j < |m| ==> s[|w| + j] == m[j];
    assert forall k :: |w| <= k < |w| + |m| ==> OptionChar(s[k]) by {
      assert forall k :: |w| <= k < |w| + |m| ==> s[k] == m[k - |w|];
    }
    var last := i + |p| - 1;
    OccurrenceAt(s, p, i, |p| - 1);
    OccurrenceAt(s, p, i, 0);
    OccurrenceAt(s, p, i, 1);
    if i <= |w| && |w| + |m| <= last {
      var o := |w| - i;
      OccurrenceAt(s, p, i, o);
      OccurrenceAt(s, p, i, o + 1);
      OccurrenceAt(s, p, i, o + 2);
    }
  }

  lemma PartHas(a: string, b: string, c: string, p: string, i: nat)
    ensures i + |p| <= |a| ==> (HasAt(a + b + c, p, i) <==> HasAt(a, p, i))
    ensures HasAt(c, p, i) <==> HasAt(a + b + c, p, |a| + |b| + i)
  {
    var s := a + b + c;
    if i + |p| <= |a| {
      assert s[i..i + |p|] == a[i..i + |p|];
    }
    if i + |p| <= |c| {
      assert s[|a| + |b| + i..|a| + |b| + i + |p|] == c[i..i + |p|];
    }
  }

  lemma ContainsAround(w: string, m: string, x: string, p: string)
    requires OptionShape(m) && Distinctive(p)
    ensures Contains(w + m + x, p) <==> Contains(w, p) || Contains(x, p)
  {
    var s := w + m + x;
    forall i | 0 <= i <= |s| && HasAt(s, p, i) ensures Contains(w, p) || Contains(x, p) {
      NoOverlap(w, m, x, p, i);
      PartHas(w, m, x, p, i);
      if i >= |w| + |m| {
        PartHas(w, m, x, p, i - |w| - |m|);
        assert HasAt(x, p, i - |w| - |m|);
      } else {
        assert HasAt(w, p, i);
      }
    }
    forall i | 0 <= i <= |w| && HasAt(w, p, i) ensures HasAt(s, p, i) {
      PartHas(w, m, x, p, i);
    }
    forall i | 0 <= i <= |x| && HasAt(x, p, i) ensures HasAt(s, p, |w| + |m| + i) {
      PartHas(w, m, x, p, i);
    }
  }

  lemma {:induction false} ReplacingOneKeepsText(w: string, t: string, keep: nat, p: string)
    requires Distinctive(p) && StartsOption(t)
    requires Contains(ReplaceKeep(t[OptionLength(t)..], OptionText(keep)), p) <==> Contains(t[OptionLength(t)..], p)
    ensures Contains(w + ReplaceKeep(t, OptionText(keep)), p) <==> Contains(w + t, p)
  {
    var text := OptionText(keep);
    var m, rest := t[..OptionLength(t)], t[OptionLength(t)..];
    OptionHasShape(t);
    OptionTextHasShape(keep);
    ContainsAround(w, m, rest, p);
    ContainsAround(w, text, ReplaceKeep(rest, text), p);
    assert w + t == w + m + rest;
    assert w + ReplaceKeep(t, text) == w + text + ReplaceKeep(rest, text);
  }

  lemma NothingBefore(s: string)
    ensures [] + s == s
  {
  }

  lemma Reassociate(w: string, c: char, s: string)
    ensures w + [c] + s == w + ([c] + s)
  {
  }

  lemma {:induction false} ReplacingKeepsText(w: string, t: string, keep: nat, p: string)
    requires Distinctive(p)
    ensures Contains(w + ReplaceKeep(t, OptionText(keep)), p) <==> Contains(w + t, p)
    decreases |t|
  {
    var text := OptionText(keep);
    if t == [] {
      assert ReplaceKeep(t, text) == t;
    } else if StartsOption(t) {
      var rest := t[OptionLength(t)..];
      ReplacingKeepsText([], rest, keep, p);
      NothingBefore(rest);
      NothingBefore(ReplaceKeep(rest, text));
      ReplacingOneKeepsText(w, t, keep, p);
    } else {
      ReplacingKeepsText(w + [t[0]], t[1..], keep, p);
      Reassociate(w, t[0], t[1..]);
      Reassociate(w, t[0], ReplaceKeep(t[1..], text));
      assert t == [t[0]] + t[1..];
    }
  }

  // ---------------------------------------------- comment signs keep the command

  predicate IsBlank(c: char) { IsSpace(c) || c == '#' }

  predicate AllBlank(s: string) { forall i :: 0 <= i < |s| ==> IsBlank(s[i]) }

  predicate NoBlanks(p: string) { p != [] && forall i :: 0 <= i < |p| ==> !IsBlank(p[i]) }

  lemma ContainsPadded(pre: string, body: string, post: string, p: string)
    requires AllBlank(pre) && AllBlank(post) && NoBlanks(p)
    ensures Contains(pre + body + post, p) <==> Contains(body, p)
  {
    var s := pre + body + post;
    forall i | 0 <= i <= |s| && HasAt(s, p, i) ensures i >= |pre| && HasAt(body, p, i - |pre|) {
      PaddedOccurrence(pre, body, post, p, i);
    }
    forall i | 0 <= i <= |body| && HasAt(body, p, i) ensures HasAt(s, p, |pre| + i) {
      assert s[|pre| + i..|pre| + i + |p|] == body[i..i + |p|];
    }
  }

  lemma PaddedOccurrence(pre: string, body: string, post: string, p: string, i: nat)
    requires AllBlank(pre) && AllBlank(post) && NoBlanks(p) && HasAt(pre + body + post, p, i)
    ensures i >= |pre| && HasAt(body, p, i - |pre|)
  {
    var s := pre + body + post;
    OccurrenceAt(s, p, i, 0);
    OccurrenceAt(s, p, i, |p| - 1);
    BlankOutside(pre, body, post, i);
    BlankOutside(pre, body, post, i + |p| - 1);
    var j := i - |pre|;
    SameSlice(pre, body, post, j, j + |p|);
  }

  lemma SameSlice(pre: string, body: string, post: string, i: nat, j: nat)
    requires i <= j <= |body|
    ensures (pre + body + post)[|pre| + i..|pre| + j] == body[i..j]
  {
  }

  lemma BlankOutside(pre: string, body: string, post: string, i: int)
    requires AllBlank(pre) && AllBlank(post) && 0 <= i < |pre + body + post| && !IsBlank((pre + body + post)[i])
    ensures |pre| <= i < |pre| + |body|
  {
  }

  lemma {:induction false} HashesAreBlank(s: string)
    ensures AllBlank(s[..|s| - |WithoutHashes(s)|]) && s == s[..|s| - |WithoutHashes(s)|] + WithoutHashes(s)
  {
    if s != [] && s[0] == '#' {
      HashesAreBlank(s[1..]);
      var n := |s| - |WithoutHashes(s)|;
      assert s[..n] == [s[0]] + s[1..][..n - 1];
    }
  }

  lemma {:induction false} LineParts(line: string)
    ensures AllSpaces(Indent(line)) && line == Indent(line) + LStrip(line)
    ensures LStrip(line) == [] || !IsSpace(LStrip(line)[0])
  {
    if line != [] && IsSpace(line[0]) {
      LineParts(line[1..]);
      assert Indent(line) == [line[0]] + Indent(line[1..]);
      assert line == [line[0]] + line[1..];
    } else {
      assert Indent(line) == [];
    }
  }

  lemma {:induction false} RStripParts(s: string)
    ensures exists post :: AllBlank(post) && s == RStrip(s) + post
  {
    RStripIsPrefix(s);
    var i := |RStrip(s)|;
    assert s == RStrip(s) + s[i..] && AllBlank(s[i..]);
  }

  lemma FourParts(a: string, b: string, c: string, d: string, e: string)
    requires AllBlank(a) && AllBlank(b) && AllBlank(c)
    ensures AllBlank(a + b + c) && a + (b + (c + (d + e))) == (a + b + c) + d + e
  {
  }

  lemma BodyIsMiddle(line: string) returns (pre: string, body: string, post: string)
    ensures AllBlank(pre) && AllBlank(post) && line == pre + body + post
    ensures body == Strip(WithoutHashes(LStrip(line)))
  {
    LineParts(line);
    var a := LStrip(line);
    HashesAreBlank(a);
    var b := WithoutHashes(a);
    LineParts(b);
    var c := LStrip(b);
    RStripParts(c);
    body := RStrip(c);
    post :| AllBlank(post) && c == RStrip(c) + post;
    FourParts(Indent(line), a[..|a| - |b|], Indent(b), body, post);
    pre := Indent(line) + a[..|a| - |b|] + Indent(b);
  }

  /** A command line is one that names the program and the level. */
  lemma CommandLineIsContains(line: string, level: string)
    requires NoBlanks(NAME) && NoBlanks(LABEL + level)
    ensures IsCommandLine(line, level) <==>
            Contains(line, "zfs-auto-snapshot") && Contains(line, "--label=" + level)
  {
    var pre, body, post := BodyIsMiddle(line);
    ContainsPadded(pre, body, post, NAME);
    ContainsPadded(pre, body, post, LABEL + level);
  }

  /** A word in small letters that no option can end in. */
  predicate IsLevelWord(level: string) {
    && level != [] && (forall i :: 0 <= i < |level| ==> IsLower(level[i]))
    && !OptionChar(level[|level| - 1])
  }

  /** The levels of the tool are such words. */
  lemma LevelsAreWords(level: string)
    requires level in ["frequent", "hourly", "daily", "weekly", "monthly"]
    ensures IsLevelWord(level)
  {
  }

  lemma NameHasNoBlanks()
    ensures NoBlanks(NAME)
  {
  }

  lemma NameIsDistinctive()
    ensures Distinctive(NAME) && NoBlanks(NAME)
  {
    NameHasNoBlanks();
    assert NAME[0] == 'z' && NAME[16] == 't' && NAME[3] == '-' && NAME[8] == '-';
    assert forall i :: 0 <= i < 16 && NAME[i] == '-' ==> i == 3 || i == 8;
  }

  lemma LabelIsDistinctive(level: string)
    requires IsLevelWord(level)
    ensures Distinctive(LABEL + level) && NoBlanks(LABEL + level)
  {
    var p := LABEL + level;
    forall i | 0 <= i < |p| ensures !IsBlank(p[i]) && (i >= 2 ==> p[i] != '-') {
      if i >= 8 {
        assert p[i] == level[i - 8];
      }
    }
    assert p[|p| - 1] == level[|level| - 1];
    assert p[2] == 'l';
  }

  lemma {:induction false} LStripPadded(pad: string, s: string)
    requires AllSpaces(pad)
    ensures LStrip(pad + s) == LStrip(s)
  {
    if pad == [] {
      assert pad + s == s;
    } else {
      assert (pad + s)[1..] == pad[1..] + s;
      LStripPadded(pad[1..], s);
    }
  }

  lemma {:induction false} KeepPadded(pad: string, s: string)
    requires AllBlank(pad)
    ensures KeepOf(pad + s) == KeepOf(s)
  {
    if pad == [] {
      assert pad + s == s;
    } else {
      var t := pad + s;
      assert t[1..] == pad[1..] + s;
      KeepPadded(pad[1..], s);
      assert t[0] == pad[0] && IsBlank(pad[0]);
      NoOptionHere(t);
    }
  }

  /** At most one `#` in front of the command. */
  predicate OneHash(line: string) { IsCommented(line) ==> !IsCommented(LStrip(line)[1..]) }

  lemma BlankBoth(a: string, b: string)
    requires AllBlank(a) && AllBlank(b)
    ensures AllBlank(a + b)
  {
  }

  /** A text that starts with a comment sign, without the sign and one space. */
  lemma HashParts(s: string) returns (hash: string, rest: string)
    requires StartsHash(s)
    ensures AllBlank(hash) && s == hash + rest
    ensures rest == if s[1..] != [] && s[1..][0] == ' ' then s[1..][1..] else s[1..]
  {
    hash := if s[1..] != [] && s[1..][0] == ' ' then s[..2] else s[..1];
    rest := s[|hash|..];
  }

  /** What enabling and disabling leave around the same text. */
  lemma EnabledParts(line: string, enabled: bool) returns (pre: string, other: string, rest: string)
    ensures AllBlank(pre) && AllBlank(other) && line == pre + rest && SetEnabled(line, enabled) == other + rest
  {
    LineParts(line);
    SpacesAreBlank(Indent(line));
    pre, other, rest := SwitchedParts(Indent(line), LStrip(line), enabled, "# ");
  }

  lemma SpacesAreBlank(s: string)
    requires AllSpaces(s)
    ensures AllBlank(s)
  {
  }

  /** `SetEnabled` on a line of known parts. */
  lemma SwitchedParts(indent: string, stripped: string, enabled: bool, sign: string)
    returns (pre: string, other: string, rest: string)
    requires AllBlank(indent) && AllBlank(sign)
    ensures AllBlank(pre) && AllBlank(other) && indent + stripped == pre + rest
    ensures other + rest ==
            if enabled && StartsHash(stripped) then
              indent + if stripped[1..] != [] && stripped[1..][0] == ' ' then stripped[1..][1..] else stripped[1..]
            else if !enabled && !StartsHash(stripped) then indent + (sign + stripped)
            else indent + stripped
  {
    pre, other, rest := indent, indent, stripped;
    if enabled && StartsHash(stripped) {
      var hash;
      hash, rest := HashParts(stripped);
      BlankBoth(indent, hash);
      pre := indent + hash;
      assert indent + (hash + rest) == pre + rest;
    } else if !enabled && !StartsHash(stripped) {
      BlankBoth(indent, sign);
      other := indent + sign;
      assert indent + (sign + stripped) == other + rest;
    }
  }

  lemma {:induction false} EnablingKeepsCommand(line: string, enabled: bool, level: string)
    requires IsLevelWord(level)
    ensures IsCommandLine(SetEnabled(line, enabled), level) <==> IsCommandLine(line, level)
    ensures KeepOf(SetEnabled(line, enabled)) == KeepOf(line)
  {
    NameIsDistinctive();
    LabelIsDistinctive(level);
    CommandLineIsContains(line, level);
    CommandLineIsContains(SetEnabled(line, enabled), level);
    var pre, other, rest := EnabledParts(line, enabled);
    SamePadded(pre, other, rest, NAME);
    SamePadded(pre, other, rest, LABEL + level);
    KeepPadded(pre, rest);
    KeepPadded(other, rest);
  }

  lemma SamePadded(pre: string, other: string, rest: string, p: string)
    requires AllBlank(pre) && AllBlank(other) && NoBlanks(p)
    ensures Contains(pre + rest, p) <==> Contains(other + rest, p)
  {
    ContainsPadded(pre, rest, [], p);
    ContainsPadded(other, rest, [], p);
    assert pre + rest + [] == pre + rest && other + rest + [] == other + rest;
  }

  lemma EnablingActive(line: string)
    requires IsCommented(line)
    ensures IsCommented(SetEnabled(line, true)) <==> !OneHash(line)
  {
    LineParts(line);
    var body := LStrip(line)[1..];
    LStripPadded(Indent(line), if body != [] && body[0] == ' ' then body[1..] else body);
  }

  lemma Disabling(line: string)
    requires !IsCommented(line)
    ensures IsCommented(SetEnabled(line, false))
  {
    LineParts(line);
    var hashed := "# " + LStrip(line);
    LStripPadded(Indent(line), hashed);
    assert hashed[0] == '#';
  }

  /** A line is active after the change exactly when it was to be enabled and had at most
      one comment sign. */
  lemma EnablingSetsComment(line: string, enabled: bool)
    ensures IsCommented(SetEnabled(line, enabled)) <==> !(enabled && OneHash(line))
  {
    if enabled && IsCommented(line) {
      EnablingActive(line);
    } else if !enabled && !IsCommented(line) {
      Disabling(line);
    }
  }

  lemma {:induction false} ReplacingKeepsIndent(s: string, keep: nat)
    ensures LStrip(ReplaceKeep(s, OptionText(keep))) == ReplaceKeep(LStrip(s), OptionText(keep))
  {
    if s != [] {
      StartOfReplaced(s, keep);
      if IsSpace(s[0]) {
        NoOptionHere(s);
        var text := OptionText(keep);
        assert ReplaceKeep(s, text)[1..] == ReplaceKeep(s[1..], text);
        ReplacingKeepsIndent(s[1..], keep);
      }
    }
  }

  lemma NoOptionHere(s: string)
    requires s != [] && s[0] != '-'
    ensures !StartsOption(s)
  {
    assert KEEP[0] == '-';
    assert |s| >= 6 ==> s[..6][0] == s[0];
  }

  lemma {:induction false} ReplacingKeepsComment(line: string, keep: nat)
    ensures IsCommented(ReplaceKeep(line, OptionText(keep))) <==> IsCommented(line)
    ensures OneHash(ReplaceKeep(line, OptionText(keep))) <==> OneHash(line)
  {
    HeadIsKept(line, keep);
    if IsCommented(line) {
      var s, text := LStrip(line), OptionText(keep);
      NoOptionHere(s);
      ReplacingKeepsIndent(line, keep);
      assert LStrip(ReplaceKeep(line, text))[1..] == ReplaceKeep(s[1..], text);
      HeadIsKept(s[1..], keep);
    }
  }

  lemma {:induction false} HeadIsKept(line: string, keep: nat)
    ensures IsCommented(ReplaceKeep(line, OptionText(keep))) <==> IsCommented(line)
  {
    ReplacingKeepsIndent(line, keep);
    if LStrip(line) != [] {
      StartOfReplaced(LStrip(line), keep);
    }
  }

  lemma {:induction false} ReplacingKeepsCommand(line: string, level: string, keep: nat)
    requires IsLevelWord(level)
    ensures IsCommandLine(ReplaceKeep(line, OptionText(keep)), level) <==> IsCommandLine(line, level)
  {
    NameIsDistinctive();
    LabelIsDistinctive(level);
    CommandLineIsContains(line, level);
    CommandLineIsContains(ReplaceKeep(line, OptionText(keep)), level);
    ReplacingKeepsText([], line, keep, NAME);
    ReplacingKeepsText([], line, keep, LABEL + level);
    assert [] + line == line && [] + ReplaceKeep(line, OptionText(keep)) == ReplaceKeep(line, OptionText(keep));
  }

  /** A command line is still one after the change; its number is the new one, and it is
      active exactly when that was asked for and one comment sign at most was in the way. */
  lemma {:induction false} EditedLine(line: string, level: string, keep: nat, enabled: bool)
    requires IsLevelWord(level) && IsCommandLine(line, level) && KeepOf(line).Some?
    ensures var new_ := EditLine(line, level, Some(keep), Some(enabled));
            && IsCommandLine(new_, level) && KeepOf(new_) == Some(keep)
            && (IsCommented(new_) <==> !(enabled && OneHash(line)))
  {
    var replaced := ReplaceKeep(line, OptionText(keep));
    KeepIsReplaced(line, keep);
    ReplacingKeepsCommand(line, level, keep);
    ReplacingKeepsComment(line, keep);
    EnablingKeepsCommand(replaced, enabled, level);
    EnablingSetsComment(replaced, enabled);
  }

  // ---------------------------------------------------------------- whole files

  lemma {:induction false} JoinOfSplit(s: string)
    ensures Join(Split(s, '\n')) == s
    ensures forall l :: l in Split(s, '\n') ==> '\n' !in l
    decreases |s|
  {
    var i := Find(s, '\n');
    if i < |s| {
      JoinOfSplit(s[i + 1..]);
      var rest := Split(s[i + 1..], '\n');
      assert ([s[..i]] + rest)[1..] == rest;
      assert s == s[..i] + ['\n'] + s[i + 1..];
    }
  }

  lemma {:induction false} SplitOfJoin(lines: seq<string>)
    requires lines != [] && forall l :: l in lines ==> '\n' !in l
    ensures Split(Join(lines), '\n') == lines
  {
    if |lines| == 1 {
      SplitNone(lines[0], '\n');
    } else {
      SplitOfJoin(lines[1..]);
      SplitCons(lines[0], Join(lines[1..]), '\n');
    }
  }

  function WithoutEmptyLast(lines: seq<string>): seq<string>
    requires lines != []
  {
    if lines[|lines| - 1] == [] then lines[..|lines| - 1] else lines
  }

  lemma WithoutLast(lines: seq<string>)
    requires |lines| > 1
    ensures WithoutEmptyLast(lines) == [lines[0]] + WithoutEmptyLast(lines[1..])
  {
  }

  lemma WithoutLastMembers(lines: seq<string>, l: string)
    requires lines != [] && l != []
    ensures l in WithoutEmptyLast(lines) <==> l in lines
  {
    assert lines == lines[..|lines| - 1] + [lines[|lines| - 1]];
  }

  lemma {:induction false} SplitLinesOne(line: string)
    requires NoBreaks(line)
    ensures SplitLines(line) == WithoutEmptyLast([line])
  {
    assert FirstBreak(line) == |line|;
  }

  /** `splitlines` gives no empty last line. */
  lemma {:induction false} SplitLinesOfJoin(lines: seq<string>)
    requires lines != [] && forall l :: l in lines ==> NoBreaks(l)
    ensures SplitLines(Join(lines)) == WithoutEmptyLast(lines)
  {
    if |lines| == 1 {
      SplitLinesOne(lines[0]);
    } else {
      SplitLinesOfJoin(lines[1..]);
      SplitLinesCons(lines[0], Join(lines[1..]));
      WithoutLast(lines);
    }
  }

  lemma {:induction false} ReplacedCharacters(s: string, text: string)
    ensures forall c :: c in ReplaceKeep(s, text) ==> c in s || c in text
    decreases |s|
  {
    if s == [] {
    } else if StartsOption(s) {
      ReplacedCharacters(s[OptionLength(s)..], text);
    } else {
      ReplacedCharacters(s[1..], text);
    }
  }

  predicate NewCharacter(c: char) { c == '#' || c == ' ' || c == '=' || c == '-' || IsLower(c) || IsDigit(c) }

  lemma OptionTextCharacters(keep: nat)
    ensures forall c :: c in OptionText(keep) ==> NewCharacter(c)
  {
    var digits := Decimal(keep);
    assert forall i :: 0 <= i < |digits| ==> IsDigit(digits[i]);
  }

  lemma EnabledCharacters(line: string, enabled: bool)
    ensures forall c :: c in SetEnabled(line, enabled) ==> c in line || NewCharacter(c)
  {
    LineParts(line);
  }

  /** No change makes a line break. */
  lemma EditedIsOneLine(line: string, level: string, keep: Option<nat>, enabled: Option<bool>)
    ensures NoBreaks(line) ==> NoBreaks(EditLine(line, level, keep, enabled))
    ensures '\n' !in line ==> '\n' !in EditLine(line, level, keep, enabled)
  {
    var new_ := EditLine(line, level, keep, enabled);
    var text := OptionText(keep.GetOr(0));
    OptionTextCharacters(keep.GetOr(0));
    ReplacedCharacters(line, text);
    var replaced := if keep.Some? && KeepOf(line).Some? then ReplaceKeep(line, text) else line;
    EnabledCharacters(replaced, enabled.GetOr(false));
    assert forall c :: c in new_ ==> c in line || NewCharacter(c);
    assert NoBreaks(line) ==> forall c :: c in line ==> !IsBreak(c);
    assert forall i :: 0 <= i < |new_| ==> new_[i] in new_;
  }

  ghost predicate OnlyLineFeeds(content: string) {
    forall l :: l in Split(content, '\n') ==> NoBreaks(l)
  }

  lemma {:induction false} SplitOfUpdated(content: string, level: string, keep: Option<nat>, enabled: Option<bool>)
    ensures Split(Updated(content, level, keep, enabled), '\n') ==
            MapSeq(Editor(level, keep, enabled), Split(content, '\n'))
    ensures OnlyLineFeeds(content) ==> OnlyLineFeeds(Updated(content, level, keep, enabled))
  {
    JoinOfSplit(content);
    var lines := Split(content, '\n');
    var edited := MapSeq(Editor(level, keep, enabled), lines);
    forall i | 0 <= i < |lines|
      ensures '\n' !in edited[i] && (NoBreaks(lines[i]) ==> NoBreaks(edited[i]))
    {
      assert lines[i] in lines;
      EditedIsOneLine(lines[i], level, keep, enabled);
    }
    SplitOfJoin(edited);
  }

  /** Changing a level leaves every line that is not its command as it is, in its place. */
  lemma {:induction false} OtherLinesStay(content: string, level: string, keep: Option<nat>, enabled: Option<bool>,
                                          i: nat)
    requires i < |Split(content, '\n')|
    ensures |Split(Updated(content, level, keep, enabled), '\n')| == |Split(content, '\n')|
    ensures !IsCommandLine(Split(content, '\n')[i], level) ==>
              Split(Updated(content, level, keep, enabled), '\n')[i] == Split(content, '\n')[i]
  {
    SplitOfUpdated(content, level, keep, enabled);
  }

  lemma NothingInNothing(level: string)
    ensures !IsCommandLine([], level)
  {
    assert NAME[0] == 'z';
    assert LStrip([]) == [] && WithoutHashes([]) == [] && Strip([]) == [];
  }

  /** Reading does not depend on how the end of the file is written. */
  lemma {:induction false} FoundInSplit(content: string, level: string, p: string -> bool)
    requires OnlyLineFeeds(content) && forall l :: p(l) ==> l != []
    ensures var r := FirstWhere(p, SplitLines(content));
            && (r.Some? <==> exists l :: l in Split(content, '\n') && p(l))
            && (r.Some? ==> r.value in Split(content, '\n'))
  {
    JoinOfSplit(content);
    var lines := Split(content, '\n');
    SplitLinesOfJoin(lines);
    var read := SplitLines(content);
    forall l | p(l) ensures l in read <==> l in lines {
      WithoutLastMembers(lines, l);
    }
  }

  /** Some command line can be made active by taking one comment sign away. */
  ghost predicate CanBeEnabled(content: string, level: string) {
    exists l :: l in Split(content, '\n') && IsCommandLine(l, level) && OneHash(l)
  }

  ghost predicate HasCommand(content: string, level: string) {
    exists l :: l in Split(content, '\n') && IsCommandLine(l, level)
  }

  ghost predicate AllHaveKeep(content: string, level: string) {
    forall l :: l in Split(content, '\n') && IsCommandLine(l, level) ==> KeepOf(l).Some?
  }

  /** The lines of the changed file, one by one. */
  lemma {:induction false} UpdatedLine(content: string, level: string, keep: nat, enabled: bool, l: string)
    requires IsLevelWord(level) && AllHaveKeep(content, level)
    requires l in Split(Updated(content, level, Some(keep), Some(enabled)), '\n') && IsCommandLine(l, level)
    ensures KeepOf(l) == Some(keep) && (!IsCommented(l) ==> enabled && CanBeEnabled(content, level))
  {
    SplitOfUpdated(content, level, Some(keep), Some(enabled));
    var lines := Split(content, '\n');
    var i :| 0 <= i < |lines| && EditLine(lines[i], level, Some(keep), Some(enabled)) == l;
    assert lines[i] in lines;
    EditedLine(lines[i], level, keep, enabled);
  }

  lemma {:induction false} UpdatedHas(content: string, level: string, keep: nat, enabled: bool, l: string)
    requires IsLevelWord(level) && AllHaveKeep(content, level) && l in Split(content, '\n') && IsCommandLine(l, level)
    ensures var new_ := EditLine(l, level, Some(keep), Some(enabled));
            && new_ in Split(Updated(content, level, Some(keep), Some(enabled)), '\n') && IsCommandLine(new_, level)
            && (IsCommented(new_) <==> !(enabled && OneHash(l)))
  {
    SplitOfUpdated(content, level, Some(keep), Some(enabled));
    var lines := Split(content, '\n');
    var i :| 0 <= i < |lines| && lines[i] == l;
    assert MapSeq(Editor(level, Some(keep), Some(enabled)), lines)[i] == EditLine(l, level, Some(keep), Some(enabled));
    EditedLine(l, level, keep, enabled);
  }

  /** Reading after a change gives the number asked for, and the level is enabled exactly
      when that was asked for and some command line had at most one comment sign. */
  lemma ReadAfterUpdate(content: string, level: string, keep: nat, enabled: bool)
    requires IsLevelWord(level) && OnlyLineFeeds(content) && AllHaveKeep(content, level) && HasCommand(content, level)
    ensures ParsedLines(SplitLines(Updated(content, level, Some(keep), Some(enabled))), level)
            == Some(Setting(Some(keep), enabled && CanBeEnabled(content, level)))
  {
    var updated := Updated(content, level, Some(keep), Some(enabled));
    SplitOfUpdated(content, level, Some(keep), Some(enabled));
    NothingInNothing(level);
    FoundInSplit(updated, level, IsActive(level));
    FoundInSplit(updated, level, IsCommand(level));
    var active := FirstWhere(IsActive(level), SplitLines(updated));
    var command := FirstWhere(IsCommand(level), SplitLines(updated));
    var some :| some in Split(content, '\n') && IsCommandLine(some, level);
    UpdatedHas(content, level, keep, enabled, some);
    if active.Some? {
      UpdatedLine(content, level, keep, enabled, active.value);
    } else {
      UpdatedLine(content, level, keep, enabled, command.value);
      if enabled && CanBeEnabled(content, level) {
        var l :| l in Split(content, '\n') && IsCommandLine(l, level) && OneHash(l);
        UpdatedHas(content, level, keep, enabled, l);
      }
    }
  }

  // -------------------------------------------------------- disabling and enabling

  /** Disabling and enabling again brings a line back exactly when it was active. */
  lemma LineComesBackIff(line: string)
    ensures SetEnabled(SetEnabled(line, false), true) == line <==> !IsCommented(line)
  {
    LineParts(line);
    if !IsCommented(line) {
      HashedComesBack(Indent(line), LStrip(line), "# " + LStrip(line));
    }
  }

  lemma HashedComesBack(indent: string, stripped: string, hashed: string)
    requires AllSpaces(indent) && |hashed| >= 2 && hashed[0] == '#' && hashed[1] == ' ' && hashed[2..] == stripped
    ensures SetEnabled(indent + hashed, true) == indent + stripped
  {
    LStripPadded(indent, hashed);
    StartIsKept(hashed);
    assert Indent(indent + hashed) == indent;
    assert hashed[1..][1..] == stripped;
  }

  lemma {:induction false} StartIsKept(s: string)
    requires s != [] && !IsSpace(s[0])
    ensures LStrip(s) == s
  {
  }

  function BackAndForth(content: string, level: string): string {
    Updated(Updated(content, level, None, Some(false)), level, None, Some(true))
  }

  predicate ComesBack(line: string, level: string) { !(IsCommandLine(line, level) && IsCommented(line)) }

  lemma EditComesBackIff(line: string, level: string)
    requires IsLevelWord(level)
    ensures EditLine(EditLine(line, level, None, Some(false)), level, None, Some(true)) == line <==>
            ComesBack(line, level)
  {
    EnablingKeepsCommand(line, false, level);
    LineComesBackIff(line);
  }

  lemma LinesComeBackIff(lines: seq<string>, back: seq<string>, level: string)
    requires |lines| == |back| && forall i :: 0 <= i < |lines| ==> (back[i] == lines[i] <==> ComesBack(lines[i], level))
    ensures back == lines <==> forall l :: l in lines ==> ComesBack(l, level)
  {
    assert forall i :: 0 <= i < |lines| ==> lines[i] in lines;
  }

  lemma {:induction false} SplitIsInjective(a: string, b: string)
    ensures a == b <==> Split(a, '\n') == Split(b, '\n')
  {
    JoinOfSplit(a);
    JoinOfSplit(b);
  }

  /** Disabling a level and enabling it again restores the file if and only if all its
      command lines were active. */
  lemma {:induction false} FileComesBackIff(content: string, level: string)
    requires IsLevelWord(level)
    ensures BackAndForth(content, level) == content
            <==> forall l :: l in Split(content, '\n') ==> ComesBack(l, level)
  {
    var lines := Split(content, '\n');
    var off := Updated(content, level, None, Some(false));
    SplitOfUpdated(content, level, None, Some(false));
    SplitOfUpdated(off, level, None, Some(true));
    var back := Split(BackAndForth(content, level), '\n');
    SplitIsInjective(BackAndForth(content, level), content);
    forall i | 0 <= i < |lines| ensures back[i] == lines[i] <==> ComesBack(lines[i], level) {
      EditComesBackIff(lines[i], level);
    }
    LinesComeBackIff(lines, back, level);
  }
}
