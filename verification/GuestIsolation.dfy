/** What a recovery guest does not get from its origin: no network, no host hardware, no bind mounts
    (`build_recovery_config` and `host_bound_entries` of `app/recovery_guest.py`), on the lines as they are spelled. */
module GuestIsolation {
  import opened Text
  import opened GuestConfig

  // ----------------------------------------------------------- spelled keys

  predicate HasKey(s: string, key: string) { key + ":" <= s }

  ghost predicate IsNumbered(key: string, word: string) { exists d :: Numeric(d) && key == word + d }

  lemma NumberedIsSpelled(key: string, word: string)
    ensures Numbered(key, word) <==> IsNumbered(key, word)
  {
    if Numbered(key, word) {
      assert key == word + key[|word|..];
    }
    if d :| Numeric(d) && key == word + d {
      assert key[|word|..] == d;
    }
  }

  lemma {:induction false} KeyBeforeColon(s: string, key: string)
    requires ':' !in key
    ensures HasKey(s, key) <==> Find(s, ':') < |s| && Before(s, ':') == key
  {
    if HasKey(s, key) {
      ColonAt(s, key);
    }
    if Find(s, ':') < |s| && Before(s, ':') == key {
      assert s[..|key| + 1] == key + ":";
    }
  }

  lemma {:induction false} ColonAt(s: string, key: string)
    requires ':' !in key && HasKey(s, key)
    ensures |key| < |s| && Find(s, ':') == |key| && s[..|key|] == key
  {
    assert s == key + ":" + s[|key| + 1..];
    FindAt(s, ':', |key|);
  }

  // -------------------------------------------------------- keys left behind

  /** Network cards, detached volumes, and what belongs to the original machine alone. */
  ghost predicate StaysBehind(key: string) {
    || IsNumbered(key, "net") || IsNumbered(key, "unused")
    || key in ["lock", "parent", "onboot", "startup", "hookscript", "vmgenid", "smbios1", "template", "protection"]
  }

  lemma StaysBehindIff(key: string)
    ensures StaysBehind(key) <==> IsDroppedKey(key)
  {
    NumberedIsSpelled(key, "net");
    NumberedIsSpelled(key, "unused");
  }

  lemma DroppedIff(s: string)
    ensures IsDropped(s) <==> exists key :: ':' !in key && HasKey(s, key) && StaysBehind(key)
  {
    if IsDropped(s) {
      var key := Before(s, ':');
      assert ':' !in key;
      KeyBeforeColon(s, key);
      StaysBehindIff(key);
    }
    if key :| ':' !in key && HasKey(s, key) && StaysBehind(key) {
      KeyBeforeColon(s, key);
      StaysBehindIff(key);
    }
  }

  /** A rewritten line has the key of the line it comes from. */
  lemma KeyComesFrom(line: string, main: seq<string>, lxc: bool, volids: map<string, string>, key: string)
    requires RebuiltLine(line, main, lxc, volids).Some? && ':' !in key
    requires HasKey(RebuiltLine(line, main, lxc, volids).value, key)
    ensures HasKey(Strip(line), key)
  {
    var s, l := Strip(line), RebuiltLine(line, main, lxc, volids).value;
    if l != s {
      var e := EntryOf(s).value;
      KeyBeforeColon(s, e.key);
      KeyOfLine(l, e.key, key);
    }
  }

  lemma KeyOfLine(l: string, own: string, key: string)
    requires own + ": " <= l && ':' !in own && ':' !in key && HasKey(l, key)
    ensures key == own
  {
    assert own + ":" <= own + ": ";
    KeyBeforeColon(l, own);
    KeyBeforeColon(l, key);
  }

  lemma RebuiltFrom(main: seq<string>, lxc: bool, volids: map<string, string>, l: string)
    requires l in RebuiltLines(main, lxc, volids)
    ensures exists line :: line in main && RebuiltLine(line, main, lxc, volids) == Some(l)
  {
    CollectMember(Rebuilder(main, lxc, volids), main, l);
    var i :| 0 <= i < |main| && Rebuilder(main, lxc, volids)(main[i]) == Some(l);
    assert main[i] in main;
  }

  /** No rewritten line is a network card, a detached volume, or one of the original's own settings. */
  lemma NothingStaysBehind(main: seq<string>, lxc: bool, volids: map<string, string>, l: string, key: string)
    requires l in RebuiltLines(main, lxc, volids) && StaysBehind(key) && ':' !in key
    ensures !HasKey(l, key)
  {
    RebuiltFrom(main, lxc, volids, l);
    var line :| line in main && RebuiltLine(line, main, lxc, volids) == Some(l);
    DroppedIff(Strip(line));
    if HasKey(l, key) {
      KeyComesFrom(line, main, lxc, volids, key);
    }
  }

  // -------------------------------------------------------- what the host owns

  /** The line is one of the container's that hands it something of the host: a raw mount, a device rule, a
      device, or a mount point whose first part is no volume of a storage. */
  ghost predicate OfHostLxc(s: string) {
    || IsRaw(s)
    || exists key, v :: s == key + ":" + v && ValueOfHostLxc(key, v)
  }

  ghost predicate ValueOfHostLxc(key: string, v: string) {
    IsNumbered(key, "dev") || (IsNumbered(key, "mp") && ':' !in Volid(Strip(v)))
  }

  /** The USB device is one of the host's. */
  predicate NamesHostUsb(v: string) {
    "host=" <= v || "mapping=" <= v || Contains(v, ",host=") || Contains(v, ",mapping=")
  }

  /** The line is one of the machine's that hands it something of the host: a PCI or USB device, a whole
      disk by its path, a serial or parallel port. */
  ghost predicate OfHostVm(s: string) { exists key, v :: s == key + ":" + v && ValueOfHostVm(key, v) }

  ghost predicate ValueOfHostVm(key: string, v: string) {
    || IsNumbered(key, "hostpci")
    || (IsNumbered(key, "usb") && NamesHostUsb(Strip(v)))
    || ((IsNumbered(key, "scsi") || IsNumbered(key, "virtio") || IsNumbered(key, "sata") || IsNumbered(key, "ide"))
        && "/" <= Volid(Strip(v)) && !Contains(Strip(v), CDROM))
    || ((IsNumbered(key, "serial") || IsNumbered(key, "parallel")) && "/dev/" <= Volid(Strip(v)))
  }

  ghost predicate OfHost(s: string, lxc: bool) { if lxc then OfHostLxc(s) else OfHostVm(s) }

  lemma WordIsEntryKey(word: string, d: string)
    requires word != [] && (forall i :: 0 <= i < |word| ==> IsLower(word[i])) && Numeric(d)
    ensures IsEntryKey(word + d) && ':' !in word + d
  {
    LettersOf(word, d);
    assert (word + d)[|word|..] == d;
    KeyHasNoColon(word + d);
  }

  lemma {:induction false} LettersOf(word: string, d: string)
    requires (forall i :: 0 <= i < |word| ==> IsLower(word[i])) && Numeric(d)
    ensures Letters(word + d) == |word|
  {
    if word == [] {
      assert word + d == d && IsDigit(d[0]);
    } else {
      assert (word + d)[1..] == word[1..] + d && (word + d)[0] == word[0];
      LettersOf(word[1..], d);
    }
  }

  /** A numbered key that is read back from a line. */
  lemma {:induction false} NumberedEntry(s: string, key: string, v: string, word: string)
    requires s == key + ":" + v && IsNumbered(key, word)
    requires word != [] && forall i :: 0 <= i < |word| ==> IsLower(word[i])
    ensures EntryOf(s) == Some(Entry(key, LStrip(v))) && Numbered(key, word) && Strip(LStrip(v)) == Strip(v)
  {
    var d :| Numeric(d) && key == word + d;
    WordIsEntryKey(word, d);
    KeyBeforeColon(s, key);
    NumberedIsSpelled(key, word);
    StripAgain(v);
    assert s[|key| + 1..] == v;
  }

  /** The key and value of a line that is read as an entry. */
  lemma {:induction false} EntryIsSpelled(s: string)
    requires EntryOf(s).Some?
    ensures var e, v := EntryOf(s).value, s[Find(s, ':') + 1..];
            s == e.key + ":" + v && e.value == LStrip(v) && Strip(e.value) == Strip(v)
  {
    var i := Find(s, ':');
    CutAtColon(s, i);
    StripAgain(s[i + 1..]);
  }

  lemma CutAtColon(s: string, i: nat)
    requires i < |s| && s[i] == ':'
    ensures s == s[..i] + ":" + s[i + 1..]
  {
  }

  lemma VmBoundIff(key: string, v: string)
    ensures VmBound(key, Strip(v)) <==> ValueOfHostVm(key, v)
  {
    SpelledWords(key);
  }

  lemma VmBoundIsSpelled(line: string)
    requires HostBound(line, false).Some?
    ensures OfHostVm(Strip(line))
  {
    var s := Strip(line);
    EntryIsSpelled(s);
    var e, v := EntryOf(s).value, s[Find(s, ':') + 1..];
    VmBoundIff(e.key, v);
    assert s == e.key + ":" + v && ValueOfHostVm(e.key, v);
  }

  lemma VmSpelledIsBound(line: string, key: string, v: string)
    requires Strip(line) == key + ":" + v && ValueOfHostVm(key, v)
    ensures HostBound(line, false).Some?
  {
    var word := VmWord(key, v);
    NumberedEntry(Strip(line), key, v, word);
    VmBoundIff(key, v);
    NoComment(Strip(line), key, v, word);
  }

  lemma VmHostIff(line: string)
    ensures HostBound(line, false).Some? <==> OfHostVm(Strip(line))
  {
    if HostBound(line, false).Some? {
      VmBoundIsSpelled(line);
    }
    if key, v :| Strip(line) == key + ":" + v && ValueOfHostVm(key, v) {
      VmSpelledIsBound(line, key, v);
    }
  }

  /** Which of the words the key is made of. */
  ghost function VmWord(key: string, v: string): (word: string)
    requires ValueOfHostVm(key, v)
    ensures IsNumbered(key, word) && word != [] && forall i :: 0 <= i < |word| ==> IsLower(word[i])
  {
    if IsNumbered(key, "hostpci") then "hostpci"
    else if IsNumbered(key, "usb") then "usb"
    else if IsNumbered(key, "scsi") then "scsi"
    else if IsNumbered(key, "virtio") then "virtio"
    else if IsNumbered(key, "sata") then "sata"
    else if IsNumbered(key, "ide") then "ide"
    else if IsNumbered(key, "serial") then "serial"
    else "parallel"
  }

  lemma SpelledWords(key: string)
    ensures forall word :: Numbered(key, word) <==> IsNumbered(key, word)
  {
    forall word ensures Numbered(key, word) <==> IsNumbered(key, word) {
      NumberedIsSpelled(key, word);
    }
  }

  lemma NoComment(s: string, key: string, v: string, word: string)
    requires s == key + ":" + v && word <= key && word != [] && IsLower(word[0])
    ensures s != [] && !("#" <= s)
  {
    assert s[0] == word[0];
  }

  /** The raw lines of a container configuration. */
  predicate IsRaw(s: string) {
    "lxc.mount.entry:" <= s || "lxc.cgroup.devices.allow:" <= s || "lxc.cgroup2.devices.allow:" <= s
  }

  lemma RawIsBound(line: string)
    requires IsRaw(Strip(line))
    ensures HostBound(line, true).Some?
  {
    assert Strip(line)[0] == 'l';
  }

  lemma LxcBoundIsSpelled(line: string)
    requires HostBound(line, true).Some? && !IsRaw(Strip(line))
    ensures OfHostLxc(Strip(line))
  {
    var s := Strip(line);
    EntryIsSpelled(s);
    var e, v := EntryOf(s).value, s[Find(s, ':') + 1..];
    SpelledWords(e.key);
    assert s == e.key + ":" + v && ValueOfHostLxc(e.key, v);
  }

  lemma LxcSpelledIsBound(line: string, key: string, v: string)
    requires Strip(line) == key + ":" + v && ValueOfHostLxc(key, v) && !IsRaw(Strip(line))
    ensures HostBound(line, true).Some?
  {
    var word := if IsNumbered(key, "dev") then "dev" else "mp";
    NumberedEntry(Strip(line), key, v, word);
    SpelledWords(key);
    NoComment(Strip(line), key, v, word);
  }

  lemma LxcHostIff(line: string)
    ensures HostBound(line, true).Some? <==> OfHostLxc(Strip(line))
  {
    if IsRaw(Strip(line)) {
      RawIsBound(line);
    } else {
      if HostBound(line, true).Some? {
        LxcBoundIsSpelled(line);
      }
      if key, v :| Strip(line) == key + ":" + v && ValueOfHostLxc(key, v) {
        LxcSpelledIsBound(line, key, v);
      }
    }
  }

  lemma HostIff(line: string, lxc: bool)
    ensures HostBound(line, lxc).Some? <==> OfHost(Strip(line), lxc)
  {
    if lxc {
      LxcHostIff(line);
    } else {
      VmHostIff(line);
    }
  }

  lemma BoundIsLeftOut(line: string, main: seq<string>, lxc: bool)
    requires line in main && HostBound(line, lxc).Some?
    ensures IsLeftOut(Strip(line), main, lxc)
  {
    BoundEntry(line, lxc);
  }

  lemma BoundEntry(line: string, lxc: bool)
    requires HostBound(line, lxc).Some?
    ensures var s := Strip(line); HostBound(line, lxc) == Some(Entry(Strip(Before(s, ':')), Strip(After(s, ':'))))
  {
    if lxc && IsRaw(Strip(line)) {
      RawEntry(line);
    } else {
      PlainEntry(line, lxc);
    }
  }

  lemma PlainEntry(line: string, lxc: bool)
    requires HostBound(line, lxc).Some? && !(lxc && IsRaw(Strip(line)))
    ensures var s := Strip(line); HostBound(line, lxc) == Some(Entry(Strip(Before(s, ':')), Strip(After(s, ':'))))
  {
    var s := Strip(line);
    EntryIsSpelled(s);
    KeyIsTrim(EntryOf(s).value.key);
  }

  lemma RawEntry(line: string)
    requires HostBound(line, true).Some? && IsRaw(Strip(line))
    ensures var s := Strip(line); HostBound(line, true) == Some(Entry(Strip(Before(s, ':')), Strip(After(s, ':'))))
  {
    RawKey(Strip(line));
    RawBound(line, Strip(line));
  }

  lemma RawKey(s: string)
    requires IsRaw(s)
    ensures s != [] && Strip(Before(s, ':')) == Before(s, ':')
    ensures "lxc.mount.entry:" <= s ==> Before(s, ':') == "lxc.mount.entry"
  {
    if "lxc.mount.entry:" <= s {
      KeyIsClean(s, "lxc.mount.entry");
    } else if "lxc.cgroup.devices.allow:" <= s {
      KeyIsClean(s, "lxc.cgroup.devices.allow");
    } else {
      KeyIsClean(s, "lxc.cgroup2.devices.allow");
    }
  }

  lemma RawBound(line: string, s: string)
    requires s == Strip(line) && IsRaw(s) && s != [] && Strip(Before(s, ':')) == Before(s, ':')
    requires "lxc.mount.entry:" <= s ==> Before(s, ':') == "lxc.mount.entry"
    ensures HostBound(line, true) == Some(Entry(Strip(Before(s, ':')), Strip(After(s, ':'))))
  {
    assert s[0] == 'l';
  }

  lemma KeyIsClean(s: string, key: string)
    requires HasKey(s, key) && ':' !in key
    requires key != [] && key[0] == 'l' && (key[|key| - 1] == 'w' || key[|key| - 1] == 'y')
    ensures Before(s, ':') == key && Strip(key) == key && s != []
  {
    KeyBeforeColon(s, key);
    KeyOfRaw(key);
  }

  lemma KeyOfRaw(key: string)
    requires key != [] && key[0] == 'l' && (key[|key| - 1] == 'w' || key[|key| - 1] == 'y')
    ensures Strip(key) == key
  {
    StripOfTrim(key);
  }

  /** A line of the origin that hands the guest something of the host has no line in the recovery guest; and a
      line is missing there only when it is blank or a comment, stays behind by its key, or repeats such a line. */
  lemma MissingIff(line: string, main: seq<string>, lxc: bool, volids: map<string, string>)
    requires line in main
    ensures RebuiltLine(line, main, lxc, volids).None? <==>
            || Strip(line) == [] || "#" <= Strip(line)
            || (exists key :: ':' !in key && HasKey(Strip(line), key) && StaysBehind(key))
            || OfHost(Strip(line), lxc) || Repeats(Strip(line), main, lxc)
  {
    DroppedIff(Strip(line));
    HostIff(line, lxc);
    if HostBound(line, lxc).Some? {
      BoundIsLeftOut(line, main, lxc);
    }
    RepeatsIff(Strip(line), main, lxc);
  }

  /** The line has the key and the value, apart from blanks, of a line that hands over something of the host. */
  ghost predicate Repeats(s: string, main: seq<string>, lxc: bool) {
    exists l :: l in main && OfHost(Strip(l), lxc)
             && Strip(Before(Strip(l), ':')) == Strip(Before(s, ':'))
             && Strip(After(Strip(l), ':')) == Strip(After(s, ':'))
  }

  lemma RepeatsIff(s: string, main: seq<string>, lxc: bool)
    ensures IsLeftOut(s, main, lxc) <==> Repeats(s, main, lxc)
  {
    forall l | l in main
      ensures HostBound(l, lxc).Some? <==> OfHost(Strip(l), lxc)
      ensures HostBound(l, lxc).Some? ==>
                HostBound(l, lxc).value == Entry(Strip(Before(Strip(l), ':')), Strip(After(Strip(l), ':'))) {
      HostIff(l, lxc);
      if HostBound(l, lxc).Some? {
        BoundEntry(l, lxc);
      }
    }
  }
}
