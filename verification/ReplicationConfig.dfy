/** The shell-style replication configuration: `_parse_config`, `_serialize_config` and
    `_escape` of `app/replication.py`. A dictionary in insertion order is a list of
    settings with different keys. */
module ReplicationConfig {
  import opened Text

  datatype Line = Raw(text: string) | Kv(key: string, value: string)

  datatype Setting = Setting(key: string, value: string)

  // ------------------------------------------------------------------ one line

  predicate IsLetter(c: char) { 'a' <= c <= 'z' || 'A' <= c <= 'Z' || c == '_' }

  predicate IsKeyChar(c: char) { IsLetter(c) || IsDigit(c) }

  /** `[A-Za-z_][A-Za-z0-9_]*` */
  predicate IsKey(s: string) { s != [] && IsLetter(s[0]) && forall i :: 0 <= i < |s| ==> IsKeyChar(s[i]) }

  lemma KeyIff(s: string)
    ensures IsKey(s) <==>
      && s != [] && !(48 <= s[0] as int <= 57)
      && forall i :: 0 <= i < |s| ==>
           48 <= s[i] as int <= 57 || 65 <= s[i] as int <= 90 || 97 <= s[i] as int <= 122 || s[i] == '_'
  {
  }

  function KeyLength(s: string): (n: nat)
    ensures n <= |s| && (forall i :: 0 <= i < n ==> IsKeyChar(s[i])) && (n < |s| ==> !IsKeyChar(s[n]))
  {
    if s != [] && IsKeyChar(s[0]) then 1 + KeyLength(s[1..]) else 0
  }

  /** One layer of matching quotes is taken off. */
  function Unquoted(v: string): string {
    if |v| >= 2 && v[0] == v[|v| - 1] && (v[0] == '\'' || v[0] == '"') then v[1..|v| - 1] else v
  }

  function LineOf(raw: string): Line {
    var s := LStrip(raw);
    var n := KeyLength(s);
    var rest := LStrip(s[n..]);
    if Strip(raw) == [] || "#" <= Strip(raw) then Raw(raw)
    else if n > 0 && IsLetter(s[0]) && rest != [] && rest[0] == '=' then Kv(s[..n], Unquoted(Strip(rest[1..])))
    else Raw(raw)
  }

  function Lines(raws: seq<string>): seq<Line> { MapSeq(LineOf, raws) }

  /** Later lines win. */
  function ValuesOf(lines: seq<Line>): map<string, string> {
    if lines == [] then map[]
    else
      var l := lines[|lines| - 1];
      var m := ValuesOf(lines[..|lines| - 1]);
      if l.Kv? then m[l.key := l.value] else m
  }

  lemma LinesNext(raws: seq<string>, i: nat)
    requires i < |raws|
    ensures Lines(raws[..i + 1]) == Lines(raws[..i]) + [LineOf(raws[i])]
  {
    assert raws[..i + 1][..i] == raws[..i];
  }

  lemma {:induction false} ValuesNext(lines: seq<Line>, l: Line)
    ensures ValuesOf(lines + [l]) == if l.Kv? then ValuesOf(lines)[l.key := l.value] else ValuesOf(lines)
  {
    assert (lines + [l])[..|lines|] == lines;
  }

  /** `_parse_config` */
  method ParseConfig(text: string) returns (values: map<string, string>, lines: seq<Line>)
    ensures lines == Lines(SplitLines(text)) && values == ValuesOf(lines)
  {
    var raws := SplitLines(text);
    values, lines := map[], [];
    for i := 0 to |raws|
      invariant lines == Lines(raws[..i]) && values == ValuesOf(lines)
    {
      var l := LineOf(raws[i]);
      LinesNext(raws, i);
      ValuesNext(lines, l);
      if l.Kv? {
        values := values[l.key := l.value];
      }
      lines := lines + [l];
    }
    assert raws[..|raws|] == raws;
  }

  // ------------------------------------------------------------------- writing

  /** `s.replace(c, r)` */
  function Replaced(s: string, c: char, r: string): string {
    if s == [] then [] else (if s[0] == c then r else [s[0]]) + Replaced(s[1..], c, r)
  }

  /** `_escape`: four replacements, one after the other. */
  function Escape(s: string): string {
    Replaced(Replaced(Replaced(Replaced(s, '\\', "\\\\"), '"', "\\\""), '$', "\\$"), '`', "\\`")
  }

  predicate IsSpecial(c: char) { c == '\\' || c == '"' || c == '$' || c == '`' }

  /** Free of the characters that are escaped. */
  predicate IsPlain(s: string) { forall i :: 0 <= i < |s| ==> !IsSpecial(s[i]) }

  function Assignment(key: string, value: string): string { key + "=\"" + Escape(value) + "\"" }

  predicate HasKey(values: seq<Setting>, key: string) { exists s :: s in values && s.key == key }

  function ValueOf(values: seq<Setting>, key: string): string
    requires HasKey(values, key)
  {
    if values[|values| - 1].key == key then values[|values| - 1].value
    else ValueOf(values[..|values| - 1], key)
  }

  function Kept(values: seq<Setting>): Line -> Option<string> {
    (l: Line) =>
      if l.Raw? then Some(l.text)
      else if HasKey(values, l.key) then Some(Assignment(l.key, ValueOf(values, l.key)))
      else None
  }

  predicate IsWritten(lines: seq<Line>, key: string) { exists l :: l in lines && l.Kv? && l.key == key }

  function Appended(lines: seq<Line>): Setting -> Option<string> {
    (s: Setting) => if IsWritten(lines, s.key) then None else Some(Assignment(s.key, s.value))
  }

  function Serialized(values: seq<Setting>, lines: seq<Line>): seq<string> {
    Collect(Kept(values), lines) + Collect(Appended(lines), values)
  }

  /** `"\n".join(out) + "\n"` */
  function Joined(out: seq<string>): string { if out == [] then "\n" else Unlines(out) }

  lemma WrittenNext(lines: seq<Line>, i: nat)
    requires i < |lines|
    ensures forall k :: IsWritten(lines[..i + 1], k) <==>
            IsWritten(lines[..i], k) || (lines[i].Kv? && lines[i].key == k)
  {
    forall k ensures IsWritten(lines[..i + 1], k) <==>
                     IsWritten(lines[..i], k) || (lines[i].Kv? && lines[i].key == k) {
      WrittenOne(lines[..i], lines[i], k);
      assert lines[..i + 1] == lines[..i] + [lines[i]];
    }
  }

  lemma WrittenOne(lines: seq<Line>, l: Line, k: string)
    ensures IsWritten(lines + [l], k) <==> IsWritten(lines, k) || (l.Kv? && l.key == k)
  {
    if l.Kv? && l.key == k {
      assert l in lines + [l];
    }
    if IsWritten(lines, k) {
      var x :| x in lines && x.Kv? && x.key == k;
      assert x in lines + [l];
    }
  }

  method KeepLines(values: seq<Setting>, lines: seq<Line>) returns (out: seq<string>, written: set<string>)
    ensures out == Collect(Kept(values), lines)
    ensures forall k :: k in written <==> IsWritten(lines, k) && HasKey(values, k)
  {
    out, written := [], {};
    for i := 0 to |lines|
      invariant out == Collect(Kept(values), lines[..i])
      invariant forall k :: k in written <==> IsWritten(lines[..i], k) && HasKey(values, k)
    {
      CollectNext(Kept(values), lines, i);
      WrittenNext(lines, i);
      out := out + Maybe(Kept(values)(lines[i]));
      if lines[i].Kv? && HasKey(values, lines[i].key) {
        written := written + {lines[i].key};
      }
    }
    assert lines[..|lines|] == lines;
  }

  method AppendNew(values: seq<Setting>, ghost lines: seq<Line>, written: set<string>) returns (out: seq<string>)
    requires forall k :: k in written <==> IsWritten(lines, k) && HasKey(values, k)
    ensures out == Collect(Appended(lines), values)
  {
    out := [];
    for i := 0 to |values|
      invariant out == Collect(Appended(lines), values[..i])
    {
      CollectNext(Appended(lines), values, i);
      assert HasKey(values, values[i].key);
      if values[i].key !in written {
        out := out + [Assignment(values[i].key, values[i].value)];
      }
    }
    assert values[..|values|] == values;
  }

  /** `_serialize_config` */
  method SerializeConfig(values: seq<Setting>, lines: seq<Line>) returns (text: string)
    ensures text == Joined(Serialized(values, lines))
  {
    var kept, written := KeepLines(values, lines);
    var new_ := AppendNew(values, lines, written);
    text := Joined(kept + new_);
  }

  // ----------------------------------------------------------------- escaping

  function EscapedChar(c: char): string { if IsSpecial(c) then ['\\', c] else [c] }

  function EscapedBy(s: string): string { if s == [] then [] else EscapedChar(s[0]) + EscapedBy(s[1..]) }

  lemma {:induction false} ReplacedConcat(a: string, b: string, c: char, r: string)
    ensures Replaced(a + b, c, r) == Replaced(a, c, r) + Replaced(b, c, r)
  {
    if a == [] {
      assert a + b == b;
    } else {
      assert (a + b)[1..] == a[1..] + b;
      ReplacedConcat(a[1..], b, c, r);
    }
  }

  lemma {:induction false} ReplacedOne(x: char, c: char, r: string)
    ensures Replaced([x], c, r) == if x == c then r else [x]
  {
    assert [x][1..] == [];
  }

  lemma {:induction false} ReplacedTwo(x: char, y: char, c: char, r: string)
    ensures Replaced([x, y], c, r) == (if x == c then r else [x]) + (if y == c then r else [y])
  {
    assert [x, y] == [x] + [y];
    ReplacedConcat([x], [y], c, r);
    ReplacedOne(x, c, r);
    ReplacedOne(y, c, r);
  }

  lemma EscapeOne(x: char)
    ensures Escape([x]) == EscapedChar(x)
  {
    ReplacedOne(x, '\\', "\\\\");
    ReplacedOne(x, '"', "\\\"");
    ReplacedOne(x, '$', "\\$");
    ReplacedOne(x, '`', "\\`");
    ReplacedTwo('\\', x, '"', "\\\"");
    ReplacedTwo('\\', x, '$', "\\$");
    ReplacedTwo('\\', x, '`', "\\`");
  }

  lemma EscapeConcat(a: string, b: string)
    ensures Escape(a + b) == Escape(a) + Escape(b)
  {
    ReplacedConcat(a, b, '\\', "\\\\");
    var a1, b1 := Replaced(a, '\\', "\\\\"), Replaced(b, '\\', "\\\\");
    ReplacedConcat(a1, b1, '"', "\\\"");
    var a2, b2 := Replaced(a1, '"', "\\\""), Replaced(b1, '"', "\\\"");
    ReplacedConcat(a2, b2, '$', "\\$");
    ReplacedConcat(Replaced(a2, '$', "\\$"), Replaced(b2, '$', "\\$"), '`', "\\`");
  }

  /** The four replacements amount to one backslash before every special character. */
  lemma {:induction false} EscapeIsPerChar(s: string)
    ensures Escape(s) == EscapedBy(s)
  {
    if s != [] {
      assert s == [s[0]] + s[1..];
      EscapeConcat([s[0]], s[1..]);
      EscapeOne(s[0]);
      EscapeIsPerChar(s[1..]);
    }
  }

  lemma {:induction false} EscapedKeepsLines(s: string)
    ensures NoBreaks(s) ==> NoBreaks(EscapedBy(s))
  {
    if s != [] {
      EscapedKeepsLines(s[1..]);
      assert s == [s[0]] + s[1..];
    }
  }

  lemma PlainParts(s: string)
    requires s != []
    ensures IsPlain(s) <==> !IsSpecial(s[0]) && IsPlain(s[1..])
  {
    assert s == [s[0]] + s[1..];
  }

  /** Escaping leaves plain values alone and lengthens all others. */
  lemma {:induction false} EscapedGrows(s: string)
    ensures |s| <= |EscapedBy(s)|
    ensures IsPlain(s) <==> EscapedBy(s) == s
    ensures !IsPlain(s) ==> |s| < |EscapedBy(s)|
  {
    if s != [] {
      EscapedGrows(s[1..]);
      PlainParts(s);
      assert s == [s[0]] + s[1..];
    }
  }

  lemma {:induction false} EscapedStaysSpecial(s: string)
    requires !IsPlain(s)
    ensures !IsPlain(EscapedBy(s))
  {
    PlainParts(s);
    if !IsPlain(s[1..]) {
      EscapedStaysSpecial(s[1..]);
      var e := EscapedBy(s[1..]);
      var i :| 0 <= i < |e| && IsSpecial(e[i]);
      assert EscapedBy(s)[|EscapedChar(s[0])| + i] == e[i];
    } else {
      assert IsSpecial(EscapedBy(s)[0]);
    }
  }

  // ------------------------------------------------ a written line is read back

  lemma KeyIsWord(key: string)
    requires IsKey(key)
    ensures Trim(key) && NoBreaks(key) && key[0] != '#'
  {
    forall i | 0 <= i < |key| ensures !IsSpace(key[i]) {
      assert IsKeyChar(key[i]);
    }
  }

  lemma {:induction false} KeyLengthAt(s: string, n: nat)
    requires n < |s| && !IsKeyChar(s[n]) && forall i :: 0 <= i < n ==> IsKeyChar(s[i])
    ensures KeyLength(s) == n
  {
  }

  lemma QuotedIsRead(key: string, body: string)
    requires IsKey(key)
    ensures LineOf(key + ("=" + ("\"" + body + "\""))) == Kv(key, body)
  {
    var quoted := "\"" + body + "\"";
    var s := key + ("=" + quoted);
    KeyIsWord(key);
    assert s[0] == key[0] && s[|s| - 1] == '"';
    StripOfTrim(s);
    assert s[|key|] == '=';
    KeyLengthAt(s, |key|);
    assert s[..|key|] == key && s[|key|..] == "=" + quoted;
    assert LStrip("=" + quoted) == "=" + quoted;
    assert ("=" + quoted)[1..] == quoted;
    assert quoted[0] == '"' && quoted[|quoted| - 1] == '"';
    StripOfTrim(quoted);
    assert quoted[1..|quoted| - 1] == body;
  }

  /** The parser takes the quotes off but does not unescape. */
  lemma AssignmentIsRead(key: string, value: string)
    requires IsKey(key)
    ensures LineOf(Assignment(key, value)) == Kv(key, Escape(value))
    ensures NoBreaks(value) ==> NoBreaks(Assignment(key, value))
  {
    EscapeKeepsLines(value);
    Around(key, Escape(value));
    QuotedIsRead(key, Escape(value));
  }

  lemma EscapeKeepsLines(value: string)
    ensures NoBreaks(value) ==> NoBreaks(Escape(value))
  {
    EscapeIsPerChar(value);
    EscapedKeepsLines(value);
  }

  lemma Around(key: string, body: string)
    requires IsKey(key)
    ensures key + "=\"" + body + "\"" == key + ("=" + ("\"" + body + "\""))
    ensures NoBreaks(body) ==> NoBreaks(key + "=\"" + body + "\"")
  {
    KeyIsWord(key);
  }

  ghost predicate DistinctKeys(values: seq<Setting>) {
    forall i, j :: 0 <= i < j < |values| ==> values[i].key != values[j].key
  }

  /** Lines that a parse has produced. */
  ghost predicate AreParsed(lines: seq<Line>) {
    forall l :: l in lines ==> if l.Raw? then LineOf(l.text) == l && NoBreaks(l.text) else IsKey(l.key)
  }

  lemma {:induction false} ParsedLines(text: string)
    ensures AreParsed(Lines(SplitLines(text)))
  {
    var raws := SplitLines(text);
    forall l | l in Lines(raws) ensures if l.Raw? then LineOf(l.text) == l && NoBreaks(l.text) else IsKey(l.key) {
      var i :| 0 <= i < |raws| && Lines(raws)[i] == l;
      assert l == LineOf(raws[i]) && raws[i] in raws;
      if l.Kv? {
        var s := LStrip(raws[i]);
        assert l.key == s[..KeyLength(s)];
      }
    }
  }

  predicate IsSetting(s: Setting) { IsKey(s.key) && NoBreaks(s.value) }

  lemma {:induction false} ValueOfKey(values: seq<Setting>, s: Setting)
    requires DistinctKeys(values) && s in values
    ensures HasKey(values, s.key) && ValueOf(values, s.key) == s.value
  {
    var n := |values| - 1;
    assert values == values[..n] + [values[n]];
    if values[n] != s {
      ValueOfKey(values[..n], s);
      var i :| 0 <= i < n && values[i] == s;
    }
  }

  /** What a written line is when it is read again. */
  ghost predicate Written(values: seq<Setting>, l: Line, out: string) {
    && NoBreaks(out)
    && (l.Raw? ==> LineOf(out) == l)
    && (l.Kv? ==> HasKey(values, l.key) && LineOf(out) == Kv(l.key, Escape(ValueOf(values, l.key))))
  }

  lemma KeptIsRead(values: seq<Setting>, l: Line)
    requires DistinctKeys(values) && forall s :: s in values ==> IsSetting(s)
    requires if l.Raw? then LineOf(l.text) == l && NoBreaks(l.text) else IsKey(l.key)
    ensures Kept(values)(l).Some? ==> Written(values, l, Kept(values)(l).value)
    ensures Kept(values)(l).None? <==> l.Kv? && !HasKey(values, l.key)
  {
    if l.Kv? && HasKey(values, l.key) {
      var s :| s in values && s.key == l.key;
      ValueOfKey(values, s);
      AssignmentIsRead(l.key, s.value);
    }
  }

  /** The values a written file gives back: every value in its escaped form. */
  ghost predicate ReadsBack(m: map<string, string>, values: seq<Setting>) {
    && (forall k :: k in m ==> HasKey(values, k))
    && forall s :: s in values ==> s.key in m && m[s.key] == Escape(s.value)
  }

  ghost predicate Consistent(lines: seq<Line>, values: seq<Setting>) {
    forall l :: l in lines && l.Kv? ==> HasKey(values, l.key) && l.value == Escape(ValueOf(values, l.key))
  }

  lemma {:induction false} ValuesOfConsistent(lines: seq<Line>, values: seq<Setting>)
    requires Consistent(lines, values)
    ensures forall k :: k in ValuesOf(lines) <==> IsWritten(lines, k)
    ensures forall k :: k in ValuesOf(lines) ==> HasKey(values, k) && ValuesOf(lines)[k] == Escape(ValueOf(values, k))
  {
    if lines != [] {
      var n := |lines| - 1;
      assert lines == lines[..n] + [lines[n]];
      assert forall l :: l in lines[..n] ==> l in lines;
      ValuesOfConsistent(lines[..n], values);
    }
  }

  lemma {:induction false} SerializedIsRead(values: seq<Setting>, lines: seq<Line>, i: nat)
    requires DistinctKeys(values) && (forall s :: s in values ==> IsSetting(s)) && AreParsed(lines)
    requires i < |Serialized(values, lines)|
    ensures var out := Serialized(values, lines)[i];
            && NoBreaks(out)
            && (LineOf(out).Kv? ==>
                  HasKey(values, LineOf(out).key) && LineOf(out).value == Escape(ValueOf(values, LineOf(out).key)))
  {
    var kept, added := Collect(Kept(values), lines), Collect(Appended(lines), values);
    var out := Serialized(values, lines)[i];
    if i < |kept| {
      assert out in kept;
      CollectMember(Kept(values), lines, out);
      var j :| 0 <= j < |lines| && Kept(values)(lines[j]) == Some(out);
      assert lines[j] in lines;
      KeptIsRead(values, lines[j]);
    } else {
      assert out == added[i - |kept|] && out in added;
      CollectMember(Appended(lines), values, out);
      var j :| 0 <= j < |values| && Appended(lines)(values[j]) == Some(out);
      assert values[j] in values;
      ValueOfKey(values, values[j]);
      AssignmentIsRead(values[j].key, values[j].value);
    }
  }

  lemma EveryValueIsWritten(values: seq<Setting>, lines: seq<Line>, s: Setting)
    requires DistinctKeys(values) && (forall v :: v in values ==> IsSetting(v)) && AreParsed(lines) && s in values
    ensures IsWritten(Lines(Serialized(values, lines)), s.key)
  {
    var kept, added, out := Collect(Kept(values), lines), Collect(Appended(lines), values), Serialized(values, lines);
    ValueOfKey(values, s);
    AssignmentIsRead(s.key, s.value);
    var line := Assignment(s.key, s.value);
    if IsWritten(lines, s.key) {
      var l :| l in lines && l.Kv? && l.key == s.key;
      var j :| 0 <= j < |lines| && lines[j] == l;
      assert Kept(values)(lines[j]) == Some(line);
      CollectMember(Kept(values), lines, line);
      assert line in kept;
    } else {
      var j :| 0 <= j < |values| && values[j] == s;
      assert Appended(lines)(values[j]) == Some(line);
      CollectMember(Appended(lines), values, line);
      assert line in added;
    }
    assert line in out;
    var i :| 0 <= i < |out| && out[i] == line;
    assert Lines(out)[i] in Lines(out);
  }

  lemma WrittenFileIsRead(values: seq<Setting>, lines: seq<Line>)
    requires DistinctKeys(values) && (forall s :: s in values ==> IsSetting(s)) && AreParsed(lines)
    ensures SplitLines(Joined(Serialized(values, lines))) ==
            if Serialized(values, lines) == [] then [""] else Serialized(values, lines)
    ensures ReadsBack(ValuesOf(Lines(Serialized(values, lines))), values)
  {
    var out := Serialized(values, lines);
    forall i | 0 <= i < |out| ensures NoBreaks(out[i]) {
      SerializedIsRead(values, lines, i);
    }
    if out == [] {
      SplitLinesCons("", "");
      assert "" + ['\n'] + "" == "\n";
    } else {
      SplitUnlines(out);
    }
    forall l | l in Lines(out) && l.Kv? ensures HasKey(values, l.key) && l.value == Escape(ValueOf(values, l.key)) {
      var i :| 0 <= i < |out| && Lines(out)[i] == l;
      SerializedIsRead(values, lines, i);
    }
    ValuesOfConsistent(Lines(out), values);
    forall s | s in values
      ensures s.key in ValuesOf(Lines(out)) && ValuesOf(Lines(out))[s.key] == Escape(s.value)
    {
      EveryValueIsWritten(values, lines, s);
      ValueOfKey(values, s);
    }
  }

  function MapOf(values: seq<Setting>): map<string, string> {
    if values == [] then map[]
    else MapOf(values[..|values| - 1])[values[|values| - 1].key := values[|values| - 1].value]
  }

  lemma {:induction false} MapOfExact(values: seq<Setting>)
    requires DistinctKeys(values)
    ensures forall k :: k in MapOf(values) <==> HasKey(values, k)
    ensures forall s :: s in values ==> s.key in MapOf(values) && MapOf(values)[s.key] == s.value
  {
    if values != [] {
      var n := |values| - 1;
      assert values == values[..n] + [values[n]];
      MapOfExact(values[..n]);
      forall s | s in values && s != values[n] ensures s.key != values[n].key {
        var i :| 0 <= i < n && values[i] == s;
      }
    }
  }

  /** Writing over an existing file and parsing it again gives back exactly what was
      written, for values without line breaks, when and only when no value holds a
      backslash, a double quote, a dollar sign or a backquote. */
  lemma {:induction false} RoundTripIff(values: seq<Setting>, existing: string)
    requires DistinctKeys(values) && forall s :: s in values ==> IsSetting(s)
    ensures var lines := Lines(SplitLines(existing));
            var read := ValuesOf(Lines(SplitLines(Joined(Serialized(values, lines)))));
            read == MapOf(values) <==> forall s :: s in values ==> IsPlain(s.value)
  {
    var lines := Lines(SplitLines(existing));
    ParsedLines(existing);
    WrittenFileIsRead(values, lines);
    BlankFile();
    var read := ValuesOf(Lines(SplitLines(Joined(Serialized(values, lines)))));
    EmptyReads(values, lines);
    assert ReadsBack(read, values);
    SameIffPlain(read, values);
  }

  lemma BlankFile()
    ensures Lines([""]) == [Raw("")] && ValuesOf([Raw("")]) == map[]
  {
    StripOfTrim("");
    assert LineOf("") == Raw("");
    assert [Raw("")][..0] == [];
  }

  lemma EmptyReads(values: seq<Setting>, lines: seq<Line>)
    ensures Serialized(values, lines) == [] ==> ValuesOf(Lines([""])) == ValuesOf(Lines(Serialized(values, lines)))
  {
    BlankFile();
    assert Lines([]) == [];
  }

  lemma {:induction false} SameIffPlain(read: map<string, string>, values: seq<Setting>)
    requires DistinctKeys(values) && ReadsBack(read, values)
    ensures read == MapOf(values) <==> forall s :: s in values ==> IsPlain(s.value)
  {
    MapOfExact(values);
    forall s | s in values ensures read[s.key] == MapOf(values)[s.key] <==> IsPlain(s.value) {
      EscapeIsPerChar(s.value);
      EscapedGrows(s.value);
    }
    if forall s :: s in values ==> IsPlain(s.value) {
      forall k | k in read ensures read[k] == MapOf(values)[k] {
        var s :| s in values && s.key == k;
      }
      assert read.Keys == MapOf(values).Keys;
    }
  }

  /** Saving what was read, unchanged, changes a value with a special character again, every time. */
  lemma ResavingNeverSettles(key: string, value: string)
    requires IsKey(key) && !IsPlain(value)
    ensures var l := LineOf(Assignment(key, value)); l.Kv? && |l.value| > |value| && !IsPlain(l.value)
  {
    AssignmentIsRead(key, value);
    EscapeIsPerChar(value);
    EscapedGrows(value);
    EscapedStaysSpecial(value);
  }

  // ---------------------------------------------------------- comments stay

  function RawOf(l: Line): Option<string> { if l.Raw? then Some(l.text) else None }

  /** The comments, blank lines and unreadable lines of a file. */
  function Comments(lines: seq<Line>): seq<string> { Collect(RawOf, lines) }

  lemma CommentsConcat(a: seq<string>, b: seq<string>)
    ensures Comments(Lines(a + b)) == Comments(Lines(a)) + Comments(Lines(b))
  {
    assert Lines(a + b) == Lines(a) + Lines(b);
    CollectConcat(RawOf, Lines(a), Lines(b));
  }

  lemma CommentsMaybe(o: Option<string>)
    ensures Comments(Lines(Maybe(o))) == if o.Some? && LineOf(o.value).Raw? then [LineOf(o.value).text] else []
  {
    if o.Some? {
      assert Lines([o.value]) == [LineOf(o.value)];
      CollectOne(RawOf, LineOf(o.value));
    } else {
      assert Lines([]) == [];
    }
  }

  lemma {:induction false} KeptComments(values: seq<Setting>, lines: seq<Line>)
    requires DistinctKeys(values) && (forall s :: s in values ==> IsSetting(s)) && AreParsed(lines)
    ensures Comments(Lines(Collect(Kept(values), lines))) == Comments(lines)
  {
    if lines == [] {
      assert Lines([]) == [];
    } else {
      var n := |lines| - 1;
      assert lines == lines[..n] + [lines[n]];
      assert lines[n] in lines;
      KeptComments(values, lines[..n]);
      KeptIsRead(values, lines[n]);
      CommentsConcat(Collect(Kept(values), lines[..n]), Maybe(Kept(values)(lines[n])));
      CommentsMaybe(Kept(values)(lines[n]));
    }
  }

  lemma AppendedIsNoComment(all: seq<Line>, s: Setting)
    requires IsSetting(s)
    ensures Comments(Lines(Maybe(Appended(all)(s)))) == []
  {
    AssignmentIsRead(s.key, s.value);
    CommentsMaybe(Appended(all)(s));
  }

  lemma {:induction false} NoComments(values: seq<Setting>, all: seq<Line>)
    requires forall s :: s in values ==> IsSetting(s)
    ensures Comments(Lines(Collect(Appended(all), values))) == []
  {
    if values == [] {
      assert Lines([]) == [];
    } else {
      var n := |values| - 1;
      assert values == values[..n] + [values[n]];
      assert values[n] in values;
      NoComments(values[..n], all);
      AppendedIsNoComment(all, values[n]);
      CommentsConcat(Collect(Appended(all), values[..n]), Maybe(Appended(all)(values[n])));
    }
  }

  /** Comments, blank lines and lines the parser cannot read survive a write, in their order. */
  lemma {:induction false} CommentsStay(values: seq<Setting>, existing: string)
    requires DistinctKeys(values) && forall s :: s in values ==> IsSetting(s)
    ensures var lines := Lines(SplitLines(existing));
            Comments(Lines(Serialized(values, lines))) == Comments(lines)
  {
    ParsedLines(existing);
    CommentsStayIn(values, Lines(SplitLines(existing)));
  }

  lemma CommentsStayIn(values: seq<Setting>, lines: seq<Line>)
    requires DistinctKeys(values) && (forall s :: s in values ==> IsSetting(s)) && AreParsed(lines)
    ensures Comments(Lines(Serialized(values, lines))) == Comments(lines)
  {
    KeptComments(values, lines);
    NoComments(values, lines);
    CommentsConcat(Collect(Kept(values), lines), Collect(Appended(lines), values));
  }

  // ----------------------------------------------------------- the shell's view

  /** What a shell reads between double quotes, and what follows the closing one:
      section 2.2.3 of the POSIX.1-2017 Shell Command Language. A backslash is an
      escape only before `$`, a backquote, a double quote, a backslash or a newline.
      None when an expansion begins or the quotes do not close. */
  function ShellQuoted(s: string): Option<(string, string)> {
    if s == [] then None
    else if s[0] == '"' then Some(("", s[1..]))
    else if s[0] == '$' || s[0] == '`' then None
    else if s[0] == '\\' && |s| > 1 && (IsSpecial(s[1]) || s[1] == '\n') then
      match ShellQuoted(s[2..])
      case None => None
      case Some((v, rest)) => Some((if s[1] == '\n' then v else [s[1]] + v, rest))
    else
      match ShellQuoted(s[1..])
      case None => None
      case Some((v, rest)) => Some(([s[0]] + v, rest))
  }

  /** A shell reads back every value exactly as it was given. */
  lemma {:induction false} ShellReadsOriginal(value: string, rest: string)
    ensures ShellQuoted(Escape(value) + "\"" + rest) == Some((value, rest))
  {
    EscapeIsPerChar(value);
    ShellReadsEscaped(value, rest);
  }

  lemma {:induction false} ShellReadsEscaped(value: string, rest: string)
    ensures ShellQuoted(EscapedBy(value) + "\"" + rest) == Some((value, rest))
  {
    var s := EscapedBy(value) + "\"" + rest;
    if value == [] {
      assert s == "\"" + rest;
    } else {
      var tail := EscapedBy(value[1..]) + "\"" + rest;
      ShellReadsEscaped(value[1..], rest);
      assert s == EscapedChar(value[0]) + tail;
      assert s[|EscapedChar(value[0])|..] == tail;
      assert value == [value[0]] + value[1..];
    }
  }
}
