/** Guest configurations, as `app/recovery_guest.py` and `app/migrate.py` read and rewrite them.
    A configuration file is the sequence of its lines. */
module GuestConfig {
  import opened Text

  // ---------------------------------------------------------------- reading

  /** The lines before the first `[snapshot]` section. */
  function MainSection(lines: seq<string>): seq<string> {
    if lines == [] || "[" <= lines[0] then [] else [lines[0]] + MainSection(lines[1..])
  }

  function Letters(k: string): (n: nat)
    ensures n <= |k|
    ensures forall i :: 0 <= i < n ==> IsLower(k[i])
    ensures n < |k| ==> !IsLower(k[n])
  {
    if k != [] && IsLower(k[0]) then 1 + Letters(k[1..]) else 0
  }

  /** `[a-z]+\d*` */
  predicate IsEntryKey(k: string) { Letters(k) > 0 && AllDigits(k[Letters(k)..]) }

  /** `<word>\d+` */
  predicate Numbered(k: string, word: string) {
    word <= k && Numeric(k[|word|..])
  }

  datatype Entry = Entry(key: string, value: string)

  /** `^([a-z]+\d*):\s*(.*)$` on a stripped line. */
  function EntryOf(s: string): Option<Entry> {
    var i := Find(s, ':');
    if i < |s| && IsEntryKey(s[..i]) then Some(Entry(s[..i], LStrip(s[i + 1..]))) else None
  }

  predicate IsVmBusKey(k: string) {
    Numbered(k, "scsi") || Numbered(k, "virtio") || Numbered(k, "sata") || Numbered(k, "ide")
  }

  predicate IsDiskKey(k: string, lxc: bool) {
    if lxc then k == "rootfs" || Numbered(k, "mp")
    else IsVmBusKey(k) || Numbered(k, "efidisk") || Numbered(k, "tpmstate")
  }

  const CDROM := "media=cdrom"

  function Volid(value: string): (v: string)
    ensures |v| <= |value|
  {
    Strip(Before(value, ','))
  }

  /** The attached disk of one line, if it names one. */
  function DiskOf(line: string, lxc: bool): Option<Entry> {
    match EntryOf(Strip(line))
    case None => None
    case Some(e) =>
      var value := Strip(e.value);
      var volid := Volid(value);
      if e.value == [] || !IsDiskKey(e.key, lxc) then None
      else if volid == [] || volid == "none" || Contains(value, CDROM) then None
      else if ':' !in volid then None
      else Some(Entry(e.key, volid))
  }

  function DiskReader(lxc: bool): string -> Option<Entry> { line => DiskOf(line, lxc) }

  function DisksOf(lines: seq<string>, lxc: bool): seq<Entry> { Collect(DiskReader(lxc), lines) }

  /** `parse_guest_config_disks` */
  method ParseDisks(lines: seq<string>, lxc: bool) returns (disks: seq<Entry>)
    ensures disks == DisksOf(MainSection(lines), lxc)
  {
    var main := MainSection(lines);
    disks := [];
    for i := 0 to |main|
      invariant disks == DisksOf(main[..i], lxc)
    {
      CollectNext(DiskReader(lxc), main, i);
      disks := disks + Maybe(DiskOf(main[i], lxc));
    }
    assert main[..|main|] == main;
  }

  /** An entry that points at the host itself: a bind mount, a passed-through disk or device. */
  function HostBound(line: string, lxc: bool): Option<Entry> {
    var s := Strip(line);
    if s == [] || "#" <= s then None
    else if lxc && "lxc.mount.entry:" <= s then Some(Entry("lxc.mount.entry", Strip(After(s, ':'))))
    else if lxc && ("lxc.cgroup.devices.allow:" <= s || "lxc.cgroup2.devices.allow:" <= s) then
      Some(Entry(Before(s, ':'), Strip(After(s, ':'))))
    else
      match EntryOf(s)
      case None => None
      case Some(e) =>
        var value := Strip(e.value);
        if (if lxc then LxcBound(e.key, value) else VmBound(e.key, value)) then Some(Entry(e.key, value)) else None
  }

  predicate LxcBound(key: string, value: string) {
    (Numbered(key, "mp") && ':' !in Volid(value)) || Numbered(key, "dev")
  }

  predicate VmBound(key: string, value: string) {
    || Numbered(key, "hostpci")
    || (Numbered(key, "usb") && ("host=" <= value || "mapping=" <= value
                                 || Contains(value, ",host=") || Contains(value, ",mapping=")))
    || (IsVmBusKey(key) && "/" <= Volid(value) && !Contains(value, CDROM))
    || ((Numbered(key, "serial") || Numbered(key, "parallel")) && "/dev/" <= Volid(value))
  }

  predicate IsDroppedKey(k: string) {
    || Numbered(k, "net") || Numbered(k, "unused")
    || k == "lock" || k == "parent" || k == "onboot" || k == "startup" || k == "hookscript" || k == "vmgenid"
    || k == "smbios1" || k == "template" || k == "protection"
  }

  predicate IsDropped(s: string) { Find(s, ':') < |s| && IsDroppedKey(Before(s, ':')) }

  // -------------------------------------------------------------- rewriting

  predicate IsLeftOut(s: string, main: seq<string>, lxc: bool) {
    exists l :: l in main && HostBound(l, lxc) == Some(Entry(Strip(Before(s, ':')), Strip(After(s, ':'))))
  }

  /** One line of the origin's configuration as the recovery guest gets it. */
  function RebuiltLine(line: string, main: seq<string>, lxc: bool, volids: map<string, string>): Option<string> {
    var s := Strip(line);
    if s == [] || "#" <= s || IsDropped(s) || IsLeftOut(s, main, lxc) then None
    else
      match EntryOf(s)
      case None => Some(s)
      case Some(e) => Some(Rewritten(s, e, lxc, volids))
  }

  function Rewritten(s: string, e: Entry, lxc: bool, volids: map<string, string>): string {
    var volid := Volid(e.value);
    if volid in volids then Line(e.key, volids[volid] + e.value[|volid|..])
    else if e.key == "name" && !lxc then Line("name", Strip(e.value) + "-clone")
    else if e.key == "hostname" && lxc then Line("hostname", Strip(e.value) + "-clone")
    else s
  }

  function Rebuilder(main: seq<string>, lxc: bool, volids: map<string, string>): string -> Option<string> {
    line => RebuiltLine(line, main, lxc, volids)
  }

  function RebuiltLines(main: seq<string>, lxc: bool, volids: map<string, string>): seq<string> {
    Collect(Rebuilder(main, lxc, volids), main)
  }

  function Line(key: string, value: string): string { key + ": " + value }

  /** What closes every recovery configuration; the identifiers are freshly drawn. */
  function Closing(lxc: bool, smbios: string, genid: string): seq<string> {
    Ending(lxc, Line("onboot", "0"), Line("smbios1", "uuid=" + smbios), Line("vmgenid", genid))
  }

  function Ending(lxc: bool, boot: string, smbios: string, genid: string): seq<string> {
    if lxc then [boot] else [boot, smbios, genid]
  }

  function Rebuilt(lines: seq<string>, lxc: bool, volids: map<string, string>, marker: string,
                   smbios: string, genid: string): seq<string> {
    var main := MainSection(lines);
    [marker] + RebuiltLines(main, lxc, volids) + Closing(lxc, smbios, genid)
  }

  method RebuildLines(main: seq<string>, lxc: bool, volids: map<string, string>) returns (out: seq<string>)
    ensures out == RebuiltLines(main, lxc, volids)
  {
    out := [];
    for i := 0 to |main|
      invariant out == Collect(Rebuilder(main, lxc, volids), main[..i])
    {
      CollectNext(Rebuilder(main, lxc, volids), main, i);
      out := out + Maybe(RebuiltLine(main[i], main, lxc, volids));
    }
    assert main[..|main|] == main;
  }

  /** `build_recovery_config` */
  method BuildRecoveryConfig(lines: seq<string>, lxc: bool, volids: map<string, string>, marker: string,
                             smbios: string, genid: string) returns (out: seq<string>)
    ensures out == Rebuilt(lines, lxc, volids, marker, smbios, genid)
  {
    out := RebuildLines(MainSection(lines), lxc, volids);
    out := [marker] + out + Closing(lxc, smbios, genid);
  }

  // ------------------------------------------ the disks survive the rewriting

  /** What a volume identifier of a clone looks like: `<storage>:<name>`. */
  predicate IsPlainVolid(v: string) {
    && v != [] && ':' in v
    && forall i :: 0 <= i < |v| ==> !IsSpace(v[i]) && v[i] != ',' && v[i] != '='
  }

  /** The identifiers to replace are disk volumes, and never paths of the host. */
  ghost predicate IsVolidMap(volids: map<string, string>) {
    forall v :: v in volids ==>
      && IsPlainVolid(volids[v])
      && v != [] && v[0] != '/' && ':' in v && v != "none" && !Contains(v, CDROM)
  }

  /** The same key, pointing at the clone. */
  function ToClone(volids: map<string, string>): Entry -> Entry {
    (e: Entry) => if e.value in volids then Entry(e.key, volids[e.value]) else e
  }

  /** A value is its volume identifier, some spaces, and then either nothing or a comma. */
  lemma {:induction false} VolidIsPrefix(value: string)
    requires Trim(value)
    ensures Volid(value) <= value && Trim(Volid(value))
    ensures var rest := value[|Volid(value)|..];
            rest == [] || IsSpace(rest[0]) || rest[0] == ','
    ensures forall i :: |Volid(value)| <= i < Find(value, ',') ==> IsSpace(value[i])
    ensures |Volid(value)| <= Find(value, ',')
  {
    var first := Before(value, ',');
    if first != [] {
      assert !IsSpace(first[0]);
    }
    assert LStrip(first) == first;
    RStripIsPrefix(first);
    assert forall j :: 0 <= j < |first| ==> first[j] == value[j];
  }

  lemma PlainVolidIsRead(v: string, rest: string, k: nat)
    requires IsPlainVolid(v) && Trim(v + rest)
    requires k <= |rest| && (k < |rest| ==> rest[k] == ',') && forall j :: 0 <= j < k ==> IsSpace(rest[j])
    ensures Volid(v + rest) == v
  {
    var value := v + rest;
    if |v| + k < |value| {
      FindAt(value, ',', |v| + k);
    } else {
      FindMissing(value, ',');
    }
    var first := Before(value, ',');
    assert first == v + rest[..k];
    assert LStrip(first) == first;
    RStripOfPadded(v, rest[..k]);
  }

  lemma {:induction false} RStripOfPadded(v: string, pad: string)
    requires v != [] && !IsSpace(v[|v| - 1]) && forall j :: 0 <= j < |pad| ==> IsSpace(pad[j])
    ensures RStrip(v + pad) == v
  {
    if pad == [] {
      assert v + pad == v;
    } else {
      var n := |pad| - 1;
      assert (v + pad)[..|v + pad| - 1] == v + pad[..n];
      RStripOfPadded(v, pad[..n]);
    }
  }

  lemma PlainIsNoCdrom(v: string)
    requires IsPlainVolid(v)
    ensures !Contains(v, CDROM)
  {
    forall i | 0 <= i <= |v| ensures !HasAt(v, CDROM, i) {
      assert CDROM[5] == '=';
      assert i + |CDROM| <= |v| ==> v[i..i + |CDROM|][5] == v[i + 5];
    }
  }

  /** Replacing the identifier keeps the rest of the value readable. */
  lemma ReplacedValue(value: string, volids: map<string, string>)
    requires IsVolidMap(volids) && Trim(value) && Volid(value) in volids
    ensures var v := volids[Volid(value)] + value[|Volid(value)|..];
            Trim(v) && v != [] && Volid(v) == volids[Volid(value)] && (Contains(v, CDROM) <==> Contains(value, CDROM))
  {
    VolidIsPrefix(value);
    var volid := Volid(value);
    var rest, new_ := value[|volid|..], volids[volid];
    assert value == volid + rest;
    ContainsAcrossSeam(volid, rest, CDROM);
    ContainsAcrossSeam(new_, rest, CDROM);
    PlainIsNoCdrom(new_);
    var k := Find(value, ',') - |volid|;
    forall j | 0 <= j < k ensures IsSpace(rest[j]) {
      assert rest[j] == value[|volid| + j];
    }
    assert rest != [] ==> rest[|rest| - 1] == value[|value| - 1];
    PlainVolidIsRead(new_, rest, k);
  }

  lemma KeyHasNoColon(k: string)
    requires IsEntryKey(k)
    ensures ':' !in k && !IsSpace(k[0]) && k[0] != '#' && k[0] != '['
  {
    var n := Letters(k);
    forall i | 0 <= i < |k| ensures k[i] != ':' {
      if i >= n {
        assert IsDigit(k[n..][i - n]);
      }
    }
  }

  /** Reading back a line `key: value`. */
  lemma EntryIsRead(key: string, value: string)
    requires IsEntryKey(key) && value != [] && Trim(value)
    ensures var line := Line(key, value);
            Strip(line) == line && EntryOf(line) == Some(Entry(key, value)) && !("[" <= line) && !("#" <= line)
  {
    KeyHasNoColon(key);
    var line := Line(key, value);
    assert line[0] == key[0] && line[|line| - 1] == value[|value| - 1];
    StripOfTrim(line);
    FindAt(line, ':', |key|);
    assert line[..|key|] == key && line[|key| + 1..] == " " + value;
    assert (" " + value)[1..] == value;
    assert LStrip(" " + value) == LStrip(value) == value;
  }

  // The per-line statement: a kept line names the mapped disk, a dropped line named none.

  ghost predicate KeepsDisk(line: string, rebuilt: Option<string>, lxc: bool, volids: map<string, string>) {
    && (rebuilt.Some? ==> !("[" <= rebuilt.value))
    && ReadsImage(DiskReader(lxc), rebuilt, ToClone(volids), line)
  }

  predicate Starts(k: string, a: char, b: char) { |k| >= 2 && k[0] == a && k[1] == b }

  lemma NumberedStarts(k: string, word: string)
    requires |word| >= 2
    ensures Numbered(k, word) ==> Starts(k, word[0], word[1])
  {
    if Numbered(k, word) {
      assert k[..|word|] == word;
    }
  }

  lemma DiskKeyStarts(k: string, lxc: bool)
    requires IsDiskKey(k, lxc)
    ensures lxc ==> Starts(k, 'r', 'o') || Starts(k, 'm', 'p')
    ensures !lxc ==> Starts(k, 's', 'c') || Starts(k, 'v', 'i') || Starts(k, 's', 'a') || Starts(k, 'i', 'd')
                     || Starts(k, 'e', 'f') || Starts(k, 't', 'p')
  {
    NumberedStarts(k, "mp");
    NumberedStarts(k, "scsi");
    NumberedStarts(k, "virtio");
    NumberedStarts(k, "sata");
    NumberedStarts(k, "ide");
    NumberedStarts(k, "efidisk");
    NumberedStarts(k, "tpmstate");
  }

  lemma DroppedKeyStarts(k: string)
    requires IsDroppedKey(k)
    ensures Starts(k, 'n', 'e') || Starts(k, 'u', 'n') || Starts(k, 'l', 'o') || Starts(k, 'p', 'a')
            || Starts(k, 'o', 'n') || Starts(k, 's', 't') || Starts(k, 'h', 'o') || Starts(k, 'v', 'm')
            || Starts(k, 's', 'm') || Starts(k, 't', 'e') || Starts(k, 'p', 'r')
  {
    NumberedStarts(k, "net");
    NumberedStarts(k, "unused");
  }

  lemma DiskKeyIsNotDropped(k: string, lxc: bool)
    requires IsDiskKey(k, lxc)
    ensures !IsDroppedKey(k)
  {
    DiskKeyStarts(k, lxc);
    if IsDroppedKey(k) {
      DroppedKeyStarts(k);
    }
  }

  lemma DroppedIsNoDisk(line: string, lxc: bool)
    requires IsDropped(Strip(line))
    ensures DiskOf(line, lxc).None?
  {
    var s := Strip(line);
    if EntryOf(s).Some? && IsDiskKey(EntryOf(s).value.key, lxc) {
      DiskKeyIsNotDropped(Before(s, ':'), lxc);
    }
  }

  /** The keys that stand for bind mounts, devices and passed-through hardware. */
  lemma HostKeyIsNoDiskKey(k: string, lxc: bool)
    requires IsDiskKey(k, lxc)
    ensures lxc ==> !Numbered(k, "dev") && !Starts(k, 'l', 'x')
    ensures !lxc ==> !Numbered(k, "hostpci") && !Numbered(k, "usb")
    ensures !lxc ==> !Numbered(k, "serial") && !Numbered(k, "parallel")
  {
    DiskKeyStarts(k, lxc);
    NumberedStarts(k, "dev");
    NumberedStarts(k, "hostpci");
    NumberedStarts(k, "usb");
    NumberedStarts(k, "serial");
    NumberedStarts(k, "parallel");
  }

  /** A disk line is only left out when its volume is a path of the host or no volume identifier. */
  lemma HostBoundIsNoVolume(line: string, lxc: bool)
    requires HostBound(line, lxc).Some?
    requires IsDiskKey(HostBound(line, lxc).value.key, lxc)
    ensures var e := HostBound(line, lxc).value; ':' !in Volid(e.value) || "/" <= Volid(e.value)
  {
    HostKeyIsNoDiskKey(HostBound(line, lxc).value.key, lxc);
  }

  lemma {:induction false} StripAgain(s: string)
    ensures Strip(LStrip(s)) == Strip(s)
  {
    LStripIsSuffix(s);
    assert LStrip(LStrip(s)) == LStrip(s);
  }

  lemma KeyIsTrim(k: string)
    requires IsEntryKey(k)
    ensures Strip(k) == k
  {
    var n := Letters(k);
    if n < |k| {
      assert IsDigit(k[n..][|k| - 1 - n]);
    }
    StripOfTrim(k);
  }

  lemma LeftOutIsNoDisk(line: string, main: seq<string>, lxc: bool)
    requires IsLeftOut(Strip(line), main, lxc)
    requires DiskOf(line, lxc).Some? ==> !("/" <= DiskOf(line, lxc).value.value)
    ensures DiskOf(line, lxc).None?
  {
    var s := Strip(line);
    var e := Entry(Strip(Before(s, ':')), Strip(After(s, ':')));
    var l :| l in main && HostBound(l, lxc) == Some(e);
    if DiskOf(line, lxc).Some? {
      KeyIsTrim(Before(s, ':'));
      StripAgain(After(s, ':'));
      HostBoundIsNoVolume(l, lxc);
    }
  }

  /** The value of an entry of a stripped line has clean ends. */
  lemma EntryValueIsTrim(line: string)
    requires EntryOf(Strip(line)).Some?
    ensures var e := EntryOf(Strip(line)).value; IsEntryKey(e.key) && Trim(e.value) && Strip(e.value) == e.value
  {
    var s := Strip(line);
    StripIsTrim(line);
    TailIsTrim(s, Find(s, ':') + 1);
    StripOfTrim(LStrip(s[Find(s, ':') + 1..]));
  }

  lemma TailIsTrim(s: string, i: nat)
    requires i <= |s| && Trim(s)
    ensures Trim(LStrip(s[i..]))
  {
    LStripIsSuffix(s[i..]);
  }

  /** A written line `key: value` names the same disk as its entry. */
  lemma WrittenDisk(key: string, value: string, lxc: bool)
    requires IsEntryKey(key) && value != [] && Trim(value)
    ensures var l := Line(key, value);
            && !("[" <= l) && !("#" <= l)
            && DiskOf(l, lxc) == if IsDiskKey(key, lxc) && Volid(value) != [] && Volid(value) != "none"
                                    && !Contains(value, CDROM) && ':' in Volid(value)
                                 then Some(Entry(key, Volid(value))) else None
  {
    EntryIsRead(key, value);
    StripOfTrim(value);
  }

  lemma ReplacedKeepsDisk(line: string, lxc: bool, volids: map<string, string>)
    requires IsVolidMap(volids) && EntryOf(Strip(line)).Some? && Volid(EntryOf(Strip(line)).value.value) in volids
    ensures var e := EntryOf(Strip(line)).value;
            KeepsDisk(line, Some(Line(e.key, volids[Volid(e.value)] + e.value[|Volid(e.value)|..])), lxc, volids)
  {
    var e := EntryOf(Strip(line)).value;
    EntryValueIsTrim(line);
    ReplacedValue(e.value, volids);
    WrittenDisk(e.key, volids[Volid(e.value)] + e.value[|Volid(e.value)|..], lxc);
  }

  lemma RenamedKeepsDisk(line: string, key: string, name: string, lxc: bool, volids: map<string, string>)
    requires EntryOf(Strip(line)).Some? && EntryOf(Strip(line)).value.key == key && !IsDiskKey(key, lxc)
    ensures KeepsDisk(line, Some(Line(key, Strip(name) + "-clone")), lxc, volids)
  {
    StripIsTrim(name);
    assert Trim(Strip(name) + "-clone");
    EntryValueIsTrim(line);
    WrittenDisk(key, Strip(name) + "-clone", lxc);
  }

  lemma NameIsNoDiskKey(lxc: bool)
    ensures !IsDiskKey("name", lxc) && !IsDiskKey("hostname", lxc)
  {
    if IsDiskKey("name", lxc) {
      DiskKeyStarts("name", lxc);
    }
    if IsDiskKey("hostname", lxc) {
      DiskKeyStarts("hostname", lxc);
    }
  }

  lemma KeptKeepsDisk(line: string, lxc: bool, volids: map<string, string>)
    requires DiskOf(line, lxc).None? && !("[" <= Strip(line)) && !("#" <= Strip(line))
    ensures KeepsDisk(line, Some(Strip(line)), lxc, volids)
  {
    StripIsTrim(line);
    StripOfTrim(Strip(line));
  }

  lemma RewrittenKeepsDisk(line: string, lxc: bool, volids: map<string, string>)
    requires IsVolidMap(volids) && !("[" <= Strip(line)) && !("#" <= Strip(line)) && EntryOf(Strip(line)).Some?
    requires DiskOf(line, lxc).Some? ==> DiskOf(line, lxc).value.value in volids
    ensures KeepsDisk(line, Some(Rewritten(Strip(line), EntryOf(Strip(line)).value, lxc, volids)), lxc, volids)
  {
    var e := EntryOf(Strip(line)).value;
    EntryValueIsTrim(line);
    if Volid(e.value) in volids {
      ReplacedKeepsDisk(line, lxc, volids);
    } else if (e.key == "name" && !lxc) || (e.key == "hostname" && lxc) {
      NameIsNoDiskKey(lxc);
      RenamedKeepsDisk(line, e.key, e.value, lxc, volids);
    } else {
      KeptKeepsDisk(line, lxc, volids);
    }
  }

  lemma RebuiltLineKeepsDisk(line: string, main: seq<string>, lxc: bool, volids: map<string, string>)
    requires IsVolidMap(volids) && !("[" <= Strip(line))
    requires DiskOf(line, lxc).Some? ==> DiskOf(line, lxc).value.value in volids
    ensures KeepsDisk(line, RebuiltLine(line, main, lxc, volids), lxc, volids)
  {
    var s := Strip(line);
    if "#" <= s {
      CommentIsNoEntry(s);
    } else if IsDropped(s) {
      DroppedIsNoDisk(line, lxc);
    } else if IsLeftOut(s, main, lxc) {
      LeftOutIsNoDisk(line, main, lxc);
    } else if EntryOf(s).None? {
      KeptKeepsDisk(line, lxc, volids);
    } else {
      RewrittenKeepsDisk(line, lxc, volids);
    }
  }

  lemma CommentIsNoEntry(s: string)
    requires "#" <= s
    ensures EntryOf(s).None?
  {
    if EntryOf(s).Some? {
      KeyHasNoColon(EntryOf(s).value.key);
    }
  }

  // ------------------------------------------------------- whole configurations

  ghost predicate NoHeaders(lines: seq<string>) { forall i :: 0 <= i < |lines| ==> !("[" <= lines[i]) }

  lemma {:induction false} MainSectionOfPlain(lines: seq<string>)
    requires NoHeaders(lines)
    ensures MainSection(lines) == lines
  {
    if lines != [] {
      MainSectionOfPlain(lines[1..]);
    }
  }

  /** Every disk of the configuration has a clone to point at. */
  ghost predicate Covered(main: seq<string>, lxc: bool, volids: map<string, string>) {
    forall d :: d in DisksOf(main, lxc) ==> d.value in volids
  }

  /** No section header is indented; only then is a header-free section still header-free without its indentation. */
  ghost predicate NoIndentedHeaders(main: seq<string>) {
    forall i :: 0 <= i < |main| ==> !("[" <= Strip(main[i]))
  }

  lemma CoveredLineKeepsDisk(main: seq<string>, lxc: bool, volids: map<string, string>, i: nat)
    requires IsVolidMap(volids) && Covered(main, lxc, volids) && i < |main|
    ensures ReadsImage(DiskReader(lxc), Rebuilder(main, lxc, volids)(main[i]), ToClone(volids), main[i])
    ensures !("[" <= Strip(main[i])) ==> KeepsDisk(main[i], Rebuilder(main, lxc, volids)(main[i]), lxc, volids)
  {
    var d := DiskReader(lxc)(main[i]);
    if d.Some? {
      CollectMember(DiskReader(lxc), main, d.value);
    }
    if "[" <= Strip(main[i]) {
      StripIsTrim(main[i]);
      StripOfTrim(Strip(main[i]));
      BracketIsNoEntry(Strip(main[i]));
    } else {
      RebuiltLineKeepsDisk(main[i], main, lxc, volids);
    }
  }

  lemma BracketIsNoEntry(s: string)
    requires "[" <= s
    ensures EntryOf(s).None?
  {
    if EntryOf(s).Some? {
      KeyHasNoColon(EntryOf(s).value.key);
    }
  }

  lemma RebuiltLinesKeepDisks(main: seq<string>, lxc: bool, volids: map<string, string>)
    requires IsVolidMap(volids) && Covered(main, lxc, volids)
    ensures DisksOf(RebuiltLines(main, lxc, volids), lxc) == MapSeq(ToClone(volids), DisksOf(main, lxc))
  {
    var f, g, m := DiskReader(lxc), Rebuilder(main, lxc, volids), ToClone(volids);
    forall i | 0 <= i < |main| ensures ReadsImage(f, g(main[i]), m, main[i]) {
      CoveredLineKeepsDisk(main, lxc, volids, i);
    }
    CollectCommutes(f, g, m, main);
  }

  lemma HeaderFree(main: seq<string>, lxc: bool, volids: map<string, string>, l: string)
    requires IsVolidMap(volids) && Covered(main, lxc, volids) && NoIndentedHeaders(main)
    requires l in RebuiltLines(main, lxc, volids)
    ensures !("[" <= l)
  {
    CollectMember(Rebuilder(main, lxc, volids), main, l);
    var i :| 0 <= i < |main| && Rebuilder(main, lxc, volids)(main[i]) == Some(l);
    CoveredLineKeepsDisk(main, lxc, volids, i);
  }

  lemma RebuiltLinesHaveNoHeaders(main: seq<string>, lxc: bool, volids: map<string, string>)
    requires IsVolidMap(volids) && Covered(main, lxc, volids) && NoIndentedHeaders(main)
    ensures NoHeaders(RebuiltLines(main, lxc, volids))
  {
    var out := RebuiltLines(main, lxc, volids);
    forall j | 0 <= j < |out| ensures !("[" <= out[j]) {
      HeaderFree(main, lxc, volids, out[j]);
    }
  }

  lemma OnbootKey()
    ensures IsEntryKey("onboot")
  {
    assert Letters("onboot") == 6;
  }

  lemma SmbiosKey()
    ensures IsEntryKey("smbios1")
  {
    assert Letters("smbios1") == 6;
  }

  lemma GenidKey()
    ensures IsEntryKey("vmgenid")
  {
    assert Letters("vmgenid") == 7;
  }

  lemma ClosingKey(key: string, lxc: bool)
    requires key == "onboot" || key == "smbios1" || key == "vmgenid"
    ensures IsEntryKey(key) && !IsDiskKey(key, lxc)
  {
    OnbootKey();
    SmbiosKey();
    GenidKey();
    if IsDiskKey(key, lxc) {
      DiskKeyIsNotDropped(key, lxc);
    }
  }

  lemma OtherLine(key: string, value: string, lxc: bool)
    requires IsEntryKey(key) && !IsDiskKey(key, lxc) && value != [] && Trim(value)
    ensures DiskReader(lxc)(Line(key, value)).None? && !("[" <= Line(key, value))
  {
    WrittenDisk(key, value, lxc);
  }

  lemma {:induction false} NothingToRead<T, U>(f: T -> Option<U>, items: seq<T>)
    requires forall i :: 0 <= i < |items| ==> f(items[i]).None?
    ensures Collect(f, items) == []
  {
    if items != [] {
      NothingToRead(f, items[..|items| - 1]);
    }
  }

  lemma ClosingLine(key: string, value: string, lxc: bool)
    requires key == "onboot" || key == "smbios1" || key == "vmgenid"
    requires value != [] && Trim(value)
    ensures DiskReader(lxc)(Line(key, value)).None? && !("[" <= Line(key, value))
  {
    ClosingKey(key, lxc);
    OtherLine(key, value, lxc);
  }

  lemma PrefixedTrim(prefix: string, value: string)
    requires prefix != [] && NoSpaces(prefix) && NoSpaces(value)
    ensures Trim(prefix + value)
  {
    assert value != [] ==> (prefix + value)[|prefix + value| - 1] == value[|value| - 1];
  }

  lemma EndingHasNoDisks(lxc: bool, boot: string, smbios: string, genid: string)
    requires DiskReader(lxc)(boot).None? && DiskReader(lxc)(smbios).None? && DiskReader(lxc)(genid).None?
    requires !("[" <= boot) && !("[" <= smbios) && !("[" <= genid)
    ensures DisksOf(Ending(lxc, boot, smbios, genid), lxc) == []
    ensures NoHeaders(Ending(lxc, boot, smbios, genid))
  {
    var lines := Ending(lxc, boot, smbios, genid);
    forall i | 0 <= i < |lines| ensures DiskReader(lxc)(lines[i]).None? && !("[" <= lines[i]) {
      assert lines[i] == boot || lines[i] == smbios || lines[i] == genid;
    }
    NothingToRead(DiskReader(lxc), lines);
  }

  lemma ClosingHasNoDisks(lxc: bool, smbios: string, genid: string)
    requires NoSpaces(smbios) && NoSpaces(genid) && genid != []
    ensures DisksOf(Closing(lxc, smbios, genid), lxc) == []
    ensures NoHeaders(Closing(lxc, smbios, genid))
  {
    PrefixedTrim("uuid=", smbios);
    ClosingLine("onboot", "0", lxc);
    ClosingLine("smbios1", "uuid=" + smbios, lxc);
    ClosingLine("vmgenid", genid, lxc);
    EndingHasNoDisks(lxc, Line("onboot", "0"), Line("smbios1", "uuid=" + smbios), Line("vmgenid", genid));
  }

  lemma {:induction false} MainSectionIsPrefix(lines: seq<string>)
    ensures MainSection(lines) <= lines
  {
    if lines != [] && !("[" <= lines[0]) {
      MainSectionIsPrefix(lines[1..]);
    }
  }

  /** A configuration cut off at a header reads as the first disks of the whole. */
  lemma {:induction false} CutReading(lines: seq<string>, lxc: bool)
    ensures DisksOf(MainSection(lines), lxc) <= DisksOf(lines, lxc)
  {
    MainSectionIsPrefix(lines);
    CollectPrefix(DiskReader(lxc), MainSection(lines), lines);
  }

  /** The disks of the recovery guest are disks of the origin in the same order under
      the same keys, each pointing at its own clone. They are all of them unless the
      origin's configuration holds an indented section header. */
  lemma {:induction false} RebuiltKeepsDisks(lines: seq<string>, lxc: bool, volids: map<string, string>, marker: string,
                                             smbios: string, genid: string)
    requires IsVolidMap(volids) && Covered(MainSection(lines), lxc, volids)
    requires "#" <= Strip(marker) && !("[" <= marker) && NoSpaces(smbios) && NoSpaces(genid) && genid != []
    ensures var disks := DisksOf(MainSection(Rebuilt(lines, lxc, volids, marker, smbios, genid)), lxc);
            var clones := MapSeq(ToClone(volids), DisksOf(MainSection(lines), lxc));
            disks <= clones && (NoIndentedHeaders(MainSection(lines)) ==> disks == clones)
  {
    var main := MainSection(lines);
    var whole := Rebuilt(lines, lxc, volids, marker, smbios, genid);
    WholeKeepsDisks(lines, lxc, volids, marker, smbios, genid);
    CutReading(whole, lxc);
    if NoIndentedHeaders(main) {
      ClosingHasNoDisks(lxc, smbios, genid);
      RebuiltLinesHaveNoHeaders(main, lxc, volids);
      FramedHeaders(marker, RebuiltLines(main, lxc, volids), Closing(lxc, smbios, genid));
      MainSectionOfPlain(whole);
    }
  }

  lemma {:induction false} WholeKeepsDisks(lines: seq<string>, lxc: bool, volids: map<string, string>, marker: string,
                                           smbios: string, genid: string)
    requires IsVolidMap(volids) && Covered(MainSection(lines), lxc, volids)
    requires "#" <= Strip(marker) && NoSpaces(smbios) && NoSpaces(genid) && genid != []
    ensures DisksOf(Rebuilt(lines, lxc, volids, marker, smbios, genid), lxc)
            == MapSeq(ToClone(volids), DisksOf(MainSection(lines), lxc))
  {
    var main := MainSection(lines);
    ClosingHasNoDisks(lxc, smbios, genid);
    RebuiltLinesKeepDisks(main, lxc, volids);
    MarkerIsNoDisk(marker, lxc);
    FramedReading(DiskReader(lxc), marker, RebuiltLines(main, lxc, volids), Closing(lxc, smbios, genid));
  }

  lemma FramedHeaders(first: string, body: seq<string>, last: seq<string>)
    requires !("[" <= first) && NoHeaders(body) && NoHeaders(last)
    ensures NoHeaders([first] + body + last)
  {
  }

  lemma {:induction false} FramedReading<T, U>(f: T -> Option<U>, first: T, body: seq<T>, last: seq<T>)
    requires f(first).None? && Collect(f, last) == []
    ensures Collect(f, [first] + body + last) == Collect(f, body)
  {
    CollectOne(f, first);
    CollectConcat(f, [first], body);
    CollectConcat(f, [first] + body, last);
  }

  lemma MarkerIsNoDisk(marker: string, lxc: bool)
    requires "#" <= Strip(marker)
    ensures DiskReader(lxc)(marker).None?
  {
    CommentIsNoEntry(Strip(marker));
  }
}
