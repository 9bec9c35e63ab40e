/** The comment line by which cleanup recognises a recovery guest: `app/recovery_guest.py`. */
module GuestMarker {
  import opened Text

  datatype Marker = Marker(origin: string, snapshot: string, created: string)

  const MARKER := "pve-zfs-tool-clone"
  const LEGACY_MARKER := "pve-zfs-tool-recovery"

  function Field(key: string, value: string): string { key + "=" + value }

  function Spaced(a: string, b: string, c: string, d: string): string { a + " " + (b + " " + (c + " " + d)) }

  function TextOf(word: string, m: Marker): string {
    Spaced(word, Field("origin", m.origin), Field("snapshot", m.snapshot), Field("created", m.created))
  }

  function MarkerText(m: Marker): string { TextOf(MARKER, m) }

  /** `marker_line` */
  function MarkerLine(m: Marker): string { "#" + MarkerText(m) }

  // ------------------------------------------------------------ url decoding

  function HexValue(c: char): Option<nat> {
    if '0' <= c <= '9' then Some((c - '0') as int)
    else if 'a' <= c <= 'f' then Some((c - 'a') as int + 10)
    else if 'A' <= c <= 'F' then Some((c - 'A') as int + 10)
    else None
  }

  /** The two spellings of a digit. */
  lemma DigitIsRead(n: nat)
    requires n < 16
    ensures HexValue("0123456789abcdef"[n]) == Some(n) && HexValue("0123456789ABCDEF"[n]) == Some(n)
  {
  }

  /** An ASCII character of code `16 * h + l` is what its two digits spell. */
  lemma {:induction false} EscapeIsRead(h: nat, l: nat, rest: string)
    requires h < 8 && l < 16
    ensures var small, capital := "0123456789abcdef", "0123456789ABCDEF";
            && Unquote(['%', small[h], small[l]] + rest) == [(16 * h + l) as char] + Unquote(rest)
            && Unquote(['%', capital[h], capital[l]] + rest) == [(16 * h + l) as char] + Unquote(rest)
  {
    DigitIsRead(h);
    DigitIsRead(l);
    assert (['%', "0123456789abcdef"[h], "0123456789abcdef"[l]] + rest)[3..] == rest;
    assert (['%', "0123456789ABCDEF"[h], "0123456789ABCDEF"[l]] + rest)[3..] == rest;
  }

  /** The character a percent escape at the start of `s` stands for. */
  function Escape(s: string): Option<char> {
    if |s| >= 3 && s[0] == '%' && HexValue(s[1]).Some? && HexValue(s[2]).Some? then
      var n := 16 * HexValue(s[1]).value + HexValue(s[2]).value;
      if n < 128 then Some(n as char) else None
    else None
  }

  function Unquote(s: string): string {
    if s == [] then []
    else if Escape(s).Some? then [Escape(s).value] + Unquote(s[3..])
    else [s[0]] + Unquote(s[1..])
  }

  /** `e` spells `s` with any of its characters percent-escaped; a percent sign always is. */
  ghost predicate Spells(e: string, s: string)
    decreases |s|
  {
    if s == [] then e == []
    else
      || (e != [] && e[0] == s[0] && s[0] != '%' && Spells(e[1..], s[1..]))
      || (Escape(e) == Some(s[0]) && Spells(e[3..], s[1..]))
  }

  lemma {:induction false} UnquoteUndoesSpelling(e: string, s: string)
    requires Spells(e, s)
    ensures Unquote(e) == s
    decreases |s|
  {
    if s != [] {
      if e[0] == s[0] && s[0] != '%' && Spells(e[1..], s[1..]) {
        UnquoteUndoesSpelling(e[1..], s[1..]);
      } else {
        UnquoteUndoesSpelling(e[3..], s[1..]);
      }
      assert s == [s[0]] + s[1..];
    }
  }

  // ----------------------------------------------------------------- parsing

  predicate IsWordChar(c: char) {
    'a' <= c <= 'z' || 'A' <= c <= 'Z' || IsDigit(c) || c == '_'
  }

  /** Start of the run of word characters that ends before index `i`. */
  function RunStart(w: string, i: nat): (j: nat)
    requires i <= |w|
    ensures j <= i
  {
    if i > 0 && IsWordChar(w[i - 1]) then RunStart(w, i - 1) else i
  }

  /** The match of `(\w+)=(\S+)` in one word, looking for the equals sign from index `i` on. */
  lemma WordCharIff(c: char)
    ensures IsWordChar(c) <==>
      48 <= c as int <= 57 || 65 <= c as int <= 90 || 97 <= c as int <= 122 || c == '_'
  {
  }

  function FieldFrom(w: string, i: nat): Option<(string, string)>
    requires i <= |w|
    decreases |w| - i
  {
    if i == |w| then None
    else if w[i] == '=' && RunStart(w, i) < i && i + 1 < |w| then Some((w[RunStart(w, i)..i], w[i + 1..]))
    else FieldFrom(w, i + 1)
  }

  /** `dict(findall(...)).get(key, "")`: the last field of that name. */
  function FieldValue(words: seq<string>, key: string): string {
    if words == [] then ""
    else
      var n := |words| - 1;
      match FieldFrom(words[n], 0)
      case Some((k, v)) => if k == key then v else FieldValue(words[..n], key)
      case None => FieldValue(words[..n], key)
  }

  function MarkerOf(line: string): Option<Marker> {
    if !("#" <= line) then None
    else
      var dec := Unquote(line[1..]);
      if MARKER <= dec || LEGACY_MARKER <= dec then
        Some(Marker(FieldValue(Words(dec), "origin"), FieldValue(Words(dec), "snapshot"),
                    FieldValue(Words(dec), "created")))
      else None
  }

  /** `parse_marker`: the first line that carries the marker. */
  function ParseMarker(lines: seq<string>): Option<Marker> {
    if lines == [] then None
    else if MarkerOf(lines[0]).Some? then MarkerOf(lines[0])
    else ParseMarker(lines[1..])
  }

  // --------------------------------------------------- reading a marker back

  /** The fields of a marker contain neither spaces nor percent signs and are not empty. */
  predicate IsPlain(s: string) { s != [] && NoSpaces(s) && '%' !in s }

  predicate IsPlainMarker(m: Marker) { IsPlain(m.origin) && IsPlain(m.snapshot) && IsPlain(m.created) }

  lemma {:induction false} RunStartOfWord(w: string, i: nat)
    requires i <= |w| && forall j :: 0 <= j < i ==> IsWordChar(w[j])
    ensures RunStart(w, i) == 0
  {
    if i > 0 {
      RunStartOfWord(w, i - 1);
    }
  }

  lemma {:induction false} FieldFromSkips(w: string, i: nat, n: nat)
    requires i <= n < |w| && forall j :: 0 <= j < n ==> w[j] != '='
    ensures FieldFrom(w, i) == FieldFrom(w, n)
    decreases n - i
  {
    if i < n {
      FieldFromSkips(w, i + 1, n);
    }
  }

  ghost predicate IsName(key: string) {
    key != [] && forall j :: 0 <= j < |key| ==> IsWordChar(key[j]) && key[j] != '='
  }

  lemma FieldIsRead(key: string, value: string)
    requires IsName(key) && IsPlain(value)
    ensures FieldFrom(Field(key, value), 0) == Some((key, value))
    ensures NoSpaces(Field(key, value)) && '%' !in Field(key, value)
  {
    var w, n := Field(key, value), |key|;
    forall j | 0 <= j < n ensures w[j] == key[j] {}
    RunStartOfWord(w, n);
    FieldFromSkips(w, 0, n);
    assert w[0..n] == key && w[n + 1..] == value;
  }

  lemma WordsOfSpaced(a: string, b: string, c: string, d: string)
    requires IsWord(a) && IsWord(b) && IsWord(c) && IsWord(d)
    ensures Words(Spaced(a, b, c, d)) == [a, b, c, d]
  {
    WordsOne(d);
    WordsCons(c, d);
    WordsCons(b, c + " " + d);
    WordsCons(a, b + " " + (c + " " + d));
  }

  lemma {:induction false} FieldsOfWords(w0: string, a: string, b: string, c: string, ka: string, kb: string,
                                         kc: string, va: string, vb: string, vc: string)
    requires FieldFrom(a, 0) == Some((ka, va)) && FieldFrom(b, 0) == Some((kb, vb)) && FieldFrom(c, 0) == Some((kc, vc))
    requires ka != kb && kb != kc && ka != kc
    ensures FieldValue([w0, a, b, c], ka) == va && FieldValue([w0, a, b, c], kb) == vb
    ensures FieldValue([w0, a, b, c], kc) == vc
  {
    assert [w0, a, b, c][..3] == [w0, a, b] && [w0, a, b][..2] == [w0, a] && [w0, a][..1] == [w0];
    assert FieldValue([w0, a, b, c], ka) == FieldValue([w0, a, b], ka) == FieldValue([w0, a], ka);
    assert FieldValue([w0, a, b, c], kb) == FieldValue([w0, a, b], kb);
  }

  lemma SpacedHasNoPercent(a: string, b: string, c: string, d: string)
    requires '%' !in a && '%' !in b && '%' !in c && '%' !in d
    ensures '%' !in Spaced(a, b, c, d)
  {
  }

  lemma MarkerHasNoPercent(m: Marker)
    requires IsPlainMarker(m)
    ensures '%' !in MarkerText(m)
  {
    FieldIsRead("origin", m.origin);
    FieldIsRead("snapshot", m.snapshot);
    FieldIsRead("created", m.created);
    SpacedHasNoPercent(MARKER, Field("origin", m.origin), Field("snapshot", m.snapshot), Field("created", m.created));
  }

  lemma FieldsOfMarker(word: string, m: Marker)
    requires IsPlainMarker(m) && IsWord(word)
    ensures var words := Words(TextOf(word, m));
            FieldValue(words, "origin") == m.origin && FieldValue(words, "snapshot") == m.snapshot
            && FieldValue(words, "created") == m.created
  {
    FieldsOfSpaced(word, "origin", "snapshot", "created", m.origin, m.snapshot, m.created);
  }

  lemma {:induction false} FieldsOfSpaced(w0: string, ka: string, kb: string, kc: string, va: string, vb: string,
                                          vc: string)
    requires IsWord(w0) && IsName(ka) && IsName(kb) && IsName(kc) && IsPlain(va) && IsPlain(vb) && IsPlain(vc)
    requires ka != kb && kb != kc && ka != kc
    ensures var words := Words(Spaced(w0, Field(ka, va), Field(kb, vb), Field(kc, vc)));
            FieldValue(words, ka) == va && FieldValue(words, kb) == vb && FieldValue(words, kc) == vc
  {
    FieldIsRead(ka, va);
    FieldIsRead(kb, vb);
    FieldIsRead(kc, vc);
    WordsOfSpaced(w0, Field(ka, va), Field(kb, vb), Field(kc, vc));
    FieldsOfWords(w0, Field(ka, va), Field(kb, vb), Field(kc, vc), ka, kb, kc, va, vb, vc);
  }

  /** A marker line that PVE has re-encoded when the notes were edited still
      reads as the marker it was written from; so does one of an earlier version. */
  lemma {:induction false} MarkerIsRecognised(e: string, m: Marker, word: string)
    requires IsPlainMarker(m) && Spells(e, TextOf(word, m))
    requires word == "pve-zfs-tool-clone" || word == "pve-zfs-tool-recovery"
    ensures MarkerOf("#" + e) == Some(m)
  {
    UnquoteUndoesSpelling(e, TextOf(word, m));
    assert ("#" + e)[1..] == e;
    MarkersAreWords(word);
    FieldsOfMarker(word, m);
  }

  lemma MarkersAreWords(word: string)
    requires word == "pve-zfs-tool-clone" || word == "pve-zfs-tool-recovery"
    ensures IsWord(word) && (word == MARKER || word == LEGACY_MARKER)
  {
  }

  lemma {:induction false} PlainSpellsItself(s: string)
    requires '%' !in s
    ensures Spells(s, s)
  {
    if s != [] {
      PlainSpellsItself(s[1..]);
    }
  }

  /** `parse_marker` inverts `marker_line`, whatever follows in the configuration. */
  lemma {:induction false} MarkerRoundTrip(m: Marker, rest: seq<string>)
    requires IsPlainMarker(m)
    ensures ParseMarker([MarkerLine(m)] + rest) == Some(m)
  {
    MarkerHasNoPercent(m);
    PlainSpellsItself(MarkerText(m));
    MarkerIsRecognised(MarkerText(m), m, MARKER);
  }
}
