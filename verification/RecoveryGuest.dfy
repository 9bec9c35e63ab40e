/** Creating and destroying a recovery guest beside a concurrent snapshot pruner:
    `create_job` and `destroy_job` of `app/recovery_guest.py`.

    The host is a value that every command takes and returns. Before each command
    the pruner may have destroyed any snapshots that ZFS lets it destroy. A command
    that reports failure has changed nothing. A query is answered truthfully or stays
    silent, which the code reads as "nothing there". All that is asked and done goes to
    a transcript, and `works` tells of every place of it whether a command there works,
    if it can, and a query is answered. */
module RecoveryGuest {
  import opened Text
  import opened GuestConfig

  datatype Snap = Snap(dataset: string, name: string)
  datatype Guest = Guest(lxc: bool, vmid: string)
  datatype Disk = Disk(key: string, volid: string, dataset: string)

  /** `holds` are the holds with this tool's tag, `origins` the origin of every
      clone, `others` what a guest owns besides its attached disks. */
  datatype Host = Host(datasets: set<string>, snaps: set<Snap>, holds: set<Snap>, origins: map<string, Snap>,
                       storages: map<string, string>, configs: map<Guest, seq<string>>,
                       running: set<Guest>, others: map<Guest, set<string>>)

  /** ZFS keeps a snapshot while it has a hold or a clone. */
  ghost predicate Consistent(h: Host) {
    && h.holds <= h.snaps
    && (forall d :: d in h.origins ==> d in h.datasets && h.origins[d] in h.snaps)
  }

  // ------------------------------------------------------------------- names

  const RECOVERY_LEAF := "clone"

  function Under(pool: string, leaf: string): string { pool + "/" + leaf }

  /** `recovery_root` */
  function Root(pool: string): string { Under(pool, RECOVERY_LEAF) }

  function PoolOf(dataset: string): string { Before(dataset, '/') }

  /** `s.rsplit("/", 1)[-1]` */
  function LastPart(s: string): string {
    var parts := Split(s, '/');
    parts[|parts| - 1]
  }

  /** `volume_basename` */
  function Basename(s: string): string { LastPart(if Find(s, ':') < |s| then After(s, ':') else s) }

  /** `^[A-Za-z][A-Za-z0-9_.:/-]*$` */
  predicate IsDatasetName(s: string) {
    s != [] && ('a' <= s[0] <= 'z' || 'A' <= s[0] <= 'Z') && forall i :: 0 <= i < |s| ==> IsNameChar(s[i])
  }

  predicate IsNameChar(c: char) {
    'a' <= c <= 'z' || 'A' <= c <= 'Z' || IsDigit(c) || c == '_' || c == '.' || c == ':' || c == '/' || c == '-'
  }

  /** The name of a clone's volume; none when the dataset is not named like a PVE guest volume. */
  function CloneVolumeName(dataset: string, vmid: string): Option<string> {
    var parts := Split(Basename(dataset), '-');
    if |parts| == 4 && parts[0] in ["vm", "subvol", "base", "basevol"] && Numeric(parts[1])
       && parts[2] == "disk" && Numeric(parts[3])
    then Some(VolumeName(Ordinary(parts[0]), vmid, parts[3]))
    else None
  }

  function Ordinary(kind: string): string {
    if kind == "base" then "vm" else if kind == "basevol" then "subvol" else kind
  }

  function VolumeName(kind: string, vmid: string, index: string): string { kind + "-" + vmid + "-disk-" + index }

  predicate IsSafe(c: char) { 'a' <= c <= 'z' || IsDigit(c) || c == '.' || c == '_' || c == '-' }

  function SafeChar(c: char): (r: char)
    ensures IsSafe(r)
  {
    var l := if 'A' <= c <= 'Z' then c - 'A' + 'a' else c;
    if IsSafe(l) then l else '-'
  }

  function SafeText(s: string): (r: string)
    ensures |r| == |s| && forall i :: 0 <= i < |r| ==> IsSafe(r[i])
  {
    seq(|s|, i requires 0 <= i < |s| => SafeChar(s[i]))
  }

  function StripMarks(s: string): (r: string)
    ensures (forall i :: 0 <= i < |s| ==> IsSafe(s[i])) ==> forall i :: 0 <= i < |r| ==> IsSafe(r[i])
    decreases |s|
  {
    if s != [] && (s[0] == '-' || s[0] == '.') then StripMarks(s[1..])
    else if s != [] && (s[|s| - 1] == '-' || s[|s| - 1] == '.') then StripMarks(s[..|s| - 1])
    else s
  }

  predicate IsStorageId(id: string) { id != [] && forall i :: 0 <= i < |id| ==> IsStorageChar(id[i]) }

  predicate IsStorageChar(c: char) { IsSafe(c) || 'A' <= c <= 'Z' }

  /** `recovery_storage_id` */
  function StorageIdFor(pool: string): (id: string)
    ensures IsStorageId(id)
  {
    var sid := StripMarks(SafeText(pool + "-clone"));
    var id := if sid != [] && IsLower(sid[0]) then sid else "zfs-" + sid;
    if |id| > 63 then id[..63] else id
  }

  /** Where PVE finds a volume: in the storage's dataset, under its own name. */
  function Resolve(h: Host, volid: string): Option<string> {
    if Find(volid, ':') < |volid| && Before(volid, ':') in h.storages then
      var ds := h.storages[Before(volid, ':')] + "/" + Basename(volid);
      if IsDatasetName(ds) && ds in h.datasets then Some(ds) else None
    else None
  }

  function Resolver(h: Host): Entry -> Option<Disk> {
    (e: Entry) => match Resolve(h, e.value) case None => None case Some(ds) => Some(Disk(e.key, e.value, ds))
  }

  predicate AllResolve(h: Host, entries: seq<Entry>) { forall e :: e in entries ==> Resolve(h, e.value).Some? }

  function DisksIn(h: Host, entries: seq<Entry>): seq<Disk> { Collect(Resolver(h), entries) }

  /** Exactly three levels, the second one named `clone`. */
  predicate UnderCloneRoot(dataset: string) {
    var parts := Split(dataset, '/');
    |parts| == 3 && parts[1] == RECOVERY_LEAF
  }

  // -------------------------------------------------------------- the transcript

  datatype Command =
    | ReadGuest(guest: Guest)
    | AskSnapshot(snap: Snap)
    | AskIdentifier(vmid: string)
    | AskDataset(dataset: string)
    | CreateDataset(dataset: string)
    | AskStorage(dataset: string)
    | AddStorage(storage: string, dataset: string)
    | Hold(snap: Snap)
    | CloneTo(snap: Snap, dataset: string)
    | Destroy(dataset: string)
    | Release(snap: Snap)
    | AskHolds(snap: Snap)
    | AskConfig(guest: Guest)
    | Write(guest: Guest)
    | AskOrigin(dataset: string)
    | AskStatus(guest: Guest)
    | Stop(guest: Guest)
    | DestroyGuest(guest: Guest)
    | AskClones(snap: Snap)

  /** A command as it was given, and whether it worked; a query, and whether it was answered. */
  datatype Record = Record(command: Command, ok: bool)

  function CommandOf(r: Record): Command { r.command }

  function Commands(log: seq<Record>): seq<Command> { MapSeq(CommandOf, log) }

  /** Between two states of the transcript exactly these commands have been given, in this order. */
  predicate Issues(before: seq<Record>, after: seq<Record>, commands: seq<Command>) {
    before <= after && Commands(after[|before|..]) == commands
  }

  /** Between two states of the transcript the command was given and worked. */
  predicate Said(before: seq<Record>, after: seq<Record>, c: Command) {
    before <= after && Record(c, true) in after[|before|..]
  }

  /** It was given and has not worked. */
  predicate Unsaid(before: seq<Record>, after: seq<Record>, c: Command) {
    before <= after && Record(c, false) in after[|before|..]
  }

  lemma IssueNothing(log: seq<Record>)
    ensures Issues(log, log, []) && forall c :: !Said(log, log, c)
  {
  }

  lemma Joins(a: seq<Record>, b: seq<Record>, c: seq<Record>, x: seq<Command>, y: seq<Command>)
    requires Issues(a, b, x) && Issues(b, c, y)
    ensures Issues(a, c, x + y) && forall k :: Said(a, c, k) <==> Said(a, b, k) || Said(b, c, k)
  {
    assert c[|a|..] == b[|a|..] + c[|b|..];
    MapSeqConcat(CommandOf, b[|a|..], c[|b|..]);
  }

  lemma MapOne<T, U>(f: T -> U, x: T)
    ensures MapSeq(f, [x]) == [f(x)]
  {
    assert MapSeq(f, [x])[0] == f(x);
  }

  lemma IssueOne(a: seq<Record>, b: seq<Record>, r: Record, x: seq<Command>)
    requires Issues(a, b, x)
    ensures Issues(a, b + [r], x + [r.command])
    ensures forall k :: Said(a, b + [r], k) <==> Said(a, b, k) || r == Record(k, true)
  {
    assert (b + [r])[|b|..] == [r];
    MapOne(CommandOf, r);
    Joins(a, b, b + [r], x, [r.command]);
  }

  function HoldOf(snapshot: string): Disk -> Command { (d: Disk) => Hold(Snap(d.dataset, snapshot)) }

  function Holds(disks: seq<Disk>, snapshot: string): seq<Command> { MapSeq(HoldOf(snapshot), disks) }

  function ReleaseOf(x: Snap): Command { Release(x) }

  function AskOf(x: Snap): Command { AskHolds(x) }

  function Releases(snaps: seq<Snap>): seq<Command> { MapSeq(ReleaseOf, snaps) }

  function Asks(snaps: seq<Snap>): seq<Command> { MapSeq(AskOf, snaps) }

  lemma MapNext<T, U>(f: T -> U, s: seq<T>, i: nat)
    requires i < |s|
    ensures MapSeq(f, s[..i + 1]) == MapSeq(f, s[..i]) + [f(s[i])]
  {
    assert s[..i + 1] == s[..i] + [s[i]];
    MapSeqConcat(f, s[..i], [s[i]]);
    MapOne(f, s[i]);
  }

  /** Newest first. */
  function Undo(created: seq<string>): seq<Command> {
    if created == [] then [] else [Destroy(created[|created| - 1])] + Undo(created[..|created| - 1])
  }

  function CloneCommand(nameOf: Disk -> Option<string>, root: string, snapshot: string): Disk -> Command {
    (d: Disk) => CloneTo(Snap(d.dataset, snapshot), Target(root, nameOf(d).GetOr("")))
  }

  function Clones(disks: seq<Disk>, nameOf: Disk -> Option<string>, root: string, snapshot: string): seq<Command> {
    MapSeq(CloneCommand(nameOf, root, snapshot), disks)
  }

  // ---------------------------------------------------------------- commands

  ghost predicate Pruned(h: Host, r: Host) {
    && r == h.(snaps := r.snaps) && r.snaps <= h.snaps
    && forall x :: x in h.snaps && x !in r.snaps ==> x !in h.holds && x !in h.origins.Values
  }

  ghost function Without(h: Host, gone: set<string>): Host {
    h.(datasets := h.datasets - gone, origins := h.origins - gone)
  }

  /** No guest of either kind has the identifier. */
  predicate IsFree(h: Host, vmid: string) { Guest(true, vmid) !in h.configs && Guest(false, vmid) !in h.configs }

  /** What a command does on a host, and whether it reports success; `works` is whether it does where it can. */
  ghost predicate Acts(h: Host, c: Command, works: bool, ok: bool, r: Host) {
    match c
    case CreateDataset(d) =>
      ok == (works && d !in h.datasets) && r == if ok then h.(datasets := h.datasets + {d}) else h
    case AddStorage(s, d) =>
      ok == (works && s !in h.storages) && r == if ok then h.(storages := h.storages[s := d]) else h
    case Hold(x) => ok == (works && x in h.snaps) && r == if ok then h.(holds := h.holds + {x}) else h
    case CloneTo(x, d) =>
      && ok == (works && x in h.snaps && d !in h.datasets)
      && r == if ok then h.(datasets := h.datasets + {d}, origins := h.origins[d := x]) else h
    case Destroy(d) =>
      && ok == (works && d in h.datasets && forall x :: x in h.snaps ==> x.dataset != d)
      && r == if ok then Without(h, {d}) else h
    case Release(x) => ok == works && r == if ok then h.(holds := h.holds - {x}) else h
    case Write(g) => ok == works && if ok then IsWritten(h, g, r) else r == h
    case Stop(g) => ok == works && r == if ok then h.(running := h.running - {g}) else h
    case DestroyGuest(g) =>
      && ok == (works && g in h.configs && g !in h.running)
      && if ok then exists gone :: IsRemoved(h, g, gone, r) else r == h
    case AskSnapshot(x) => ok == (works && x in h.snaps) && r == h
    case _ => ok == works && r == h
  }

  ghost predicate IsWritten(h: Host, g: Guest, r: Host) {
    && g in r.configs && g in r.others && (IsFree(h, g.vmid) ==> r.others[g] == {})
    && r == h.(configs := h.configs[g := r.configs[g]], others := h.others[g := r.others[g]])
  }

  ghost predicate IsRemoved(h: Host, g: Guest, gone: set<string>, r: Host) {
    && r.snaps <= h.snaps
    && r == Without(h, gone).(configs := h.configs - {g}, others := h.others - {g}, snaps := r.snaps)
  }

  /** A command, and the pruner before it. */
  ghost predicate StepOf(h: Host, c: Command, works: bool, ok: bool, r: Host) {
    exists m :: Pruned(h, m) && Acts(m, c, works, ok, r)
  }

  /** The records are those of a run from `h` to `r` whose first command is at place `at` of the transcript. */
  ghost predicate Runs(h: Host, records: seq<Record>, at: nat, works: nat -> bool, r: Host) {
    if records == [] then r == h
    else
      var n := |records| - 1;
      exists m :: Runs(h, records[..n], at, works, m)
                  && StepOf(m, records[n].command, works(at + n), records[n].ok, r)
  }

  /** The transcript from `log` to `log'` is that of a run from `h` to `r`. */
  ghost predicate Ran(h: Host, log: seq<Record>, works: nat -> bool, log': seq<Record>, r: Host) {
    log <= log' && Runs(h, log'[|log|..], |log|, works, r)
  }

  lemma RanOne(h: Host, log: seq<Record>, works: nat -> bool, before: seq<Record>, m: Host, rec: Record, r: Host)
    requires Ran(h, log, works, before, m) && StepOf(m, rec.command, works(|before|), rec.ok, r)
    ensures Ran(h, log, works, before + [rec], r)
  {
    var records := (before + [rec])[|log|..];
    assert records[..|records| - 1] == before[|log|..] && records[|records| - 1] == rec;
  }

  lemma {:induction false} RanJoins(h: Host, a: seq<Record>, works: nat -> bool, b: seq<Record>, m: Host,
                                    c: seq<Record>, r: Host)
    requires Ran(h, a, works, b, m) && Ran(m, b, works, c, r)
    ensures Ran(h, a, works, c, r)
    decreases |c|
  {
    if c == b {
      assert c[|b|..] == [];
    } else {
      var n := |c| - 1;
      var last := c[|b|..];
      assert last[..|last| - 1] == c[..n][|b|..];
      var k :| Runs(m, c[..n][|b|..], |b|, works, k) && StepOf(k, c[n].command, works(n), c[n].ok, r);
      RanJoins(h, a, works, b, m, c[..n], k);
      RanOne(h, a, works, c[..n], k, c[n], r);
      assert c == c[..n] + [c[n]];
    }
  }

  /** In a run a hold works exactly when its command does and the pruner has left the snapshot until then. */
  lemma {:induction false} HoldWorksIff(h: Host, records: seq<Record>, at: nat, works: nat -> bool, r: Host, i: nat)
    requires Runs(h, records, at, works, r) && i < |records| && records[i].command.Hold?
    ensures exists before, found ::
      && Runs(h, records[..i], at, works, before) && Pruned(before, found)
      && (records[i].ok <==> works(at + i) && records[i].command.snap in found.snaps)
  {
    var n := |records| - 1;
    var m :| Runs(h, records[..n], at, works, m)
             && StepOf(m, records[n].command, works(at + n), records[n].ok, r);
    if i < n {
      assert records[..n][..i] == records[..i];
      HoldWorksIff(h, records[..n], at, works, m, i);
    }
  }

  /** A query that changes nothing. */
  lemma RanQuery(h: Host, log: seq<Record>, works: nat -> bool, before: seq<Record>, r: Host, c: Command)
    requires Ran(h, log, works, before, r) && IsQuery(c)
    ensures Ran(h, log, works, before + [Record(c, works(|before|))], r)
  {
    assert Pruned(r, r) && Acts(r, c, works(|before|), works(|before|), r);
    RanOne(h, log, works, before, r, Record(c, works(|before|)), r);
  }

  /** A query after other commands. */
  lemma AskMore(h: Host, log: seq<Record>, works: nat -> bool, before: seq<Record>, r: Host, c: Command,
                x: seq<Command>)
    requires Issues(log, before, x) && Ran(h, log, works, before, r) && IsQuery(c)
    ensures var after := before + [Record(c, works(|before|))];
            && Issues(log, after, x + [c]) && Ran(h, log, works, after, r)
            && forall k :: Said(log, after, k) <==> Said(log, before, k) || (k == c && works(|before|))
  {
    RanQuery(h, log, works, before, r, c);
    IssueOne(log, before, Record(c, works(|before|)), x);
  }

  predicate IsQuery(c: Command) {
    c.ReadGuest? || c.AskIdentifier? || c.AskConfig? || c.AskDataset? || c.AskStorage? || c.AskHolds? || c.AskOrigin?
    || c.AskStatus? || c.AskClones?
  }

  /** The pruner at work: it destroys any snapshots that have neither a hold nor a clone. */
  method Interfere(h: Host) returns (r: Host)
    requires Consistent(h)
    ensures Pruned(h, r) && Consistent(r)
  {
    var doomed: set<Snap> := *;
    r := h.(snaps := h.snaps - (set x | x in doomed && x !in h.holds && x !in h.origins.Values));
    forall d | d in r.origins ensures r.origins[d] in r.snaps {
      assert h.origins[d] in h.origins.Values;
    }
  }

  method ZfsCreate(h: Host, dataset: string, works: nat -> bool, log: seq<Record>)
    returns (r: Host, ok: bool, log': seq<Record>)
    requires Consistent(h)
    ensures log' == log + [Record(CreateDataset(dataset), ok)]
    ensures StepOf(h, CreateDataset(dataset), works(|log|), ok, r)
    ensures Consistent(r) && Pruned(h.(datasets := r.datasets), r)
    ensures r.datasets == if ok then h.datasets + {dataset} else h.datasets
  {
    r := Interfere(h);
    ok := works(|log|) && dataset !in r.datasets;
    log' := log + [Record(CreateDataset(dataset), ok)];
    if ok {
      r := r.(datasets := r.datasets + {dataset});
    }
  }

  method PvesmAdd(h: Host, storage: string, dataset: string, works: nat -> bool, log: seq<Record>)
    returns (r: Host, ok: bool, log': seq<Record>)
    requires Consistent(h)
    ensures log' == log + [Record(AddStorage(storage, dataset), ok)]
    ensures StepOf(h, AddStorage(storage, dataset), works(|log|), ok, r)
    ensures Consistent(r) && Pruned(h.(storages := r.storages), r)
    ensures ok ==> storage !in h.storages
    ensures r.storages == if ok then h.storages[storage := dataset] else h.storages
  {
    r := Interfere(h);
    ok := works(|log|) && storage !in r.storages;
    log' := log + [Record(AddStorage(storage, dataset), ok)];
    if ok {
      r := r.(storages := r.storages[storage := dataset]);
    }
  }

  method ZfsHold(h: Host, x: Snap, works: nat -> bool, log: seq<Record>) returns (r: Host, ok: bool, log': seq<Record>)
    requires Consistent(h)
    ensures log' == log + [Record(Hold(x), ok)] && StepOf(h, Hold(x), works(|log|), ok, r)
    ensures Consistent(r) && Pruned(h, r.(holds := h.holds))
    ensures r.holds == if ok then h.holds + {x} else h.holds
  {
    r := Interfere(h);
    ok := works(|log|) && x in r.snaps;
    log' := log + [Record(Hold(x), ok)];
    if ok {
      r := r.(holds := r.holds + {x});
    }
  }

  method ZfsRelease(h: Host, x: Snap, works: nat -> bool, log: seq<Record>)
    returns (r: Host, ok: bool, log': seq<Record>)
    requires Consistent(h)
    ensures log' == log + [Record(Release(x), ok)] && StepOf(h, Release(x), works(|log|), ok, r)
    ensures Consistent(r) && Pruned(h, r.(holds := h.holds))
    ensures r.holds == if ok then h.holds - {x} else h.holds
  {
    r := Interfere(h);
    ok := works(|log|);
    log' := log + [Record(Release(x), ok)];
    if ok {
      r := r.(holds := r.holds - {x});
    }
  }

  /** What `zfs clone` answers: it says so when the snapshot is not there. */
  datatype CloneResult = Done | NoOrigin | OtherError

  /** `zfs clone` needs the snapshot and a free name. */
  method ZfsClone(h: Host, x: Snap, target: string, works: nat -> bool, log: seq<Record>)
    returns (r: Host, ok: bool, why: CloneResult, log': seq<Record>)
    requires Consistent(h)
    ensures log' == log + [Record(CloneTo(x, target), ok)] && StepOf(h, CloneTo(x, target), works(|log|), ok, r)
    ensures Consistent(r) && (ok <==> why.Done?) && (why.NoOrigin? <==> x !in r.snaps)
    ensures ok ==> target !in h.datasets
    ensures Pruned(h, r.(datasets := h.datasets, origins := h.origins))
    ensures r.datasets == if ok then h.datasets + {target} else h.datasets
    ensures r.origins == if ok then h.origins[target := x] else h.origins
  {
    r := Interfere(h);
    ok := works(|log|) && x in r.snaps && target !in r.datasets;
    log' := log + [Record(CloneTo(x, target), ok)];
    why := if ok then Done else if x !in r.snaps then NoOrigin else OtherError;
    if ok {
      r := r.(datasets := r.datasets + {target}, origins := r.origins[target := x]);
    }
  }

  /** `zfs destroy` of a dataset without snapshots. */
  method ZfsDestroy(h: Host, dataset: string, works: nat -> bool, log: seq<Record>)
    returns (r: Host, ok: bool, log': seq<Record>)
    requires Consistent(h)
    ensures log' == log + [Record(Destroy(dataset), ok)] && StepOf(h, Destroy(dataset), works(|log|), ok, r)
    ensures Consistent(r) && Pruned(Without(h, if ok then {dataset} else {}), r)
  {
    r := Interfere(h);
    ok := works(|log|) && dataset in r.datasets && forall x :: x in r.snaps ==> x.dataset != dataset;
    log' := log + [Record(Destroy(dataset), ok)];
    if ok {
      r := r.(datasets := r.datasets - {dataset}, origins := r.origins - {dataset});
    } else {
      assert Without(h, {}) == h;
    }
  }

  /** The configuration is only written where none is, unless the query for one stays silent. A guest of
      a free identifier has the attached disks and nothing else; of a taken one it may own anything. */
  method WriteConfig(h: Host, guest: Guest, lines: seq<string>, works: nat -> bool, log: seq<Record>)
    returns (r: Host, ok: bool, tried: bool, log': seq<Record>)
    requires Consistent(h)
    ensures Issues(log, log', WriteScript(guest, tried)) && Ran(h, log, works, log', r)
    ensures (tried <==> guest !in h.configs || !Said(log, log', AskConfig(guest)))
    ensures ok <==> Said(log, log', Write(guest))
    ensures Consistent(r) && Pruned(h, r.(configs := h.configs, others := h.others))
    ensures r.configs == if ok then h.configs[guest := lines] else h.configs
    ensures if ok then guest in r.others && r.others == h.others[guest := r.others[guest]] else r.others == h.others
    ensures ok && IsFree(h, guest.vmid) ==> r.others[guest] == {}
  {
    var heard := works(|log|);
    r, ok, log' := h, false, log + [Record(AskConfig(guest), heard)];
    IssueNothing(log);
    IssueOne(log, log, Record(AskConfig(guest), heard), []);
    RanQuery(h, log, works, log, h, AskConfig(guest));
    tried := !(heard && guest in h.configs);
    if tried {
      ghost var before := log';
      r, ok, log' := WriteFile(h, guest, lines, works, log');
      IssueOne(log, before, Record(Write(guest), ok), [AskConfig(guest)]);
      RanOne(h, log, works, before, h, Record(Write(guest), ok), r);
    }
  }

  /** The query, and the write when that has heard of no configuration. */
  function WriteScript(g: Guest, tried: bool): seq<Command> { [AskConfig(g)] + if tried then [Write(g)] else [] }

  method WriteFile(h: Host, guest: Guest, lines: seq<string>, works: nat -> bool, log: seq<Record>)
    returns (r: Host, ok: bool, log': seq<Record>)
    requires Consistent(h)
    ensures log' == log + [Record(Write(guest), ok)] && StepOf(h, Write(guest), works(|log|), ok, r)
    ensures Consistent(r) && Pruned(h, r.(configs := h.configs, others := h.others))
    ensures r.configs == if ok then h.configs[guest := lines] else h.configs
    ensures if ok then guest in r.others && r.others == h.others[guest := r.others[guest]] else r.others == h.others
    ensures ok && IsFree(h, guest.vmid) ==> r.others[guest] == {}
  {
    r := Interfere(h);
    var owned: set<string> := *;
    ok := works(|log|);
    log' := log + [Record(Write(guest), ok)];
    if ok {
      ghost var m := r;
      assert guest == Guest(guest.lxc, guest.vmid);
      r := r.(configs := r.configs[guest := lines],
              others := r.others[guest := if IsFree(h, guest.vmid) then {} else owned]);
      assert IsWritten(m, guest, r);
    }
  }

  // ------------------------------------------------------- names of the clones

  predicate IsVolumeChar(c: char) { IsLower(c) || IsDigit(c) || c == '-' }

  predicate IsVolumeName(n: string) { n != [] && forall i :: 0 <= i < |n| ==> IsVolumeChar(n[i]) }

  /** A clone is named by the ordinary kind of its origin, the new identifier and the origin's disk
      index: a valid volume name from which all three can be read again. */
  lemma CloneNameShape(dataset: string, vmid: string)
    requires CloneVolumeName(dataset, vmid).Some? && Numeric(vmid)
    ensures var name := CloneVolumeName(dataset, vmid).value;
            var was, parts := Split(Basename(dataset), '-'), Split(name, '-');
            && IsVolumeName(name) && |was| == |parts| == 4
            && parts[1] == vmid && parts[2] == was[2] == "disk" && parts[3] == was[3]
            && IsOrdinary(parts[0], was[0])
  {
    var was := Split(Basename(dataset), '-');
    OrdinaryKinds(was[0]);
    ShapeOf(Ordinary(was[0]), vmid, was[3]);
  }

  lemma ShapeOf(kind: string, vmid: string, index: string)
    requires kind != [] && (forall i :: 0 <= i < |kind| ==> IsLower(kind[i])) && Numeric(vmid) && Numeric(index)
    ensures var name := VolumeName(kind, vmid, index);
            IsVolumeName(name) && Split(name, '-') == [kind, vmid, "disk", index]
  {
    VolumeNameOf(kind, vmid, index);
    DashesIn(kind, vmid, "disk", index, VolumeName(kind, vmid, index));
  }

  lemma {:induction false} DashesIn(kind: string, vmid: string, disk: string, index: string, name: string)
    requires '-' !in kind && '-' !in vmid && '-' !in disk && '-' !in index
    requires name == kind + "-" + vmid + ("-" + disk + "-") + index
    ensures Split(name, '-') == [kind, vmid, disk, index]
  {
    assert name == kind + ['-'] + (vmid + ['-'] + (disk + ['-'] + index));
    SplitVolumeName(kind, vmid, disk, index);
  }

  lemma OrdinaryKinds(was: string)
    requires was in ["vm", "subvol", "base", "basevol"]
    ensures var kind := Ordinary(was);
            IsOrdinary(kind, was) && kind != [] && forall i :: 0 <= i < |kind| ==> IsLower(kind[i])
  {
    assert Ordinary(was) == "vm" || Ordinary(was) == "subvol";
  }

  /** Templates give machines: their kinds become those of ordinary volumes. */
  predicate IsOrdinary(kind: string, was: string) {
    (kind == "vm" && (was == "vm" || was == "base")) || (kind == "subvol" && (was == "subvol" || was == "basevol"))
  }

  lemma {:induction false} SplitVolumeName(kind: string, vmid: string, disk: string, index: string)
    requires '-' !in kind && '-' !in vmid && '-' !in disk && '-' !in index
    ensures Split(kind + ['-'] + (vmid + ['-'] + (disk + ['-'] + index)), '-') == [kind, vmid, disk, index]
  {
    SplitNone(index, '-');
    SplitCons(disk, index, '-');
    SplitCons(vmid, disk + ['-'] + index, '-');
    SplitCons(kind, vmid + ['-'] + (disk + ['-'] + index), '-');
  }

  lemma VolumeNameOf(kind: string, vmid: string, index: string)
    requires kind != [] && (forall i :: 0 <= i < |kind| ==> IsLower(kind[i])) && AllDigits(vmid) && AllDigits(index)
    ensures IsVolumeName(VolumeName(kind, vmid, index))
  {
  }

  lemma {:induction false} LastPartOf(a: string, n: string)
    requires '/' !in n
    ensures LastPart(a + "/" + n) == n
    decreases |a|
  {
    var s := a + "/" + n;
    var i := Find(a, '/');
    if i == |a| {
      SplitCons(a, n, '/');
      SplitNone(n, '/');
    } else {
      var head, tail := a[..i], a[i + 1..];
      assert '/' !in head;
      assert s == head + ['/'] + (tail + "/" + n);
      SplitCons(head, tail + "/" + n, '/');
      LastPartOf(tail, n);
    }
  }

  lemma {:induction false} BasenameOfVolid(storage: string, n: string)
    requires ':' !in storage && '/' !in n
    ensures Find(storage + ":" + n, ':') == |storage| && Before(storage + ":" + n, ':') == storage
    ensures Basename(storage + ":" + n) == n
  {
    CutAt(storage, ':', n, storage + ":" + n);
    OnePart(n);
  }

  lemma OnePart(n: string)
    requires '/' !in n
    ensures LastPart(n) == n
  {
    SplitNone(n, '/');
  }

  lemma TargetIsUnderCloneRoot(pool: string, n: string)
    requires '/' !in pool && '/' !in n
    ensures UnderCloneRoot(Root(pool) + "/" + n)
  {
    ThreeParts(pool, RECOVERY_LEAF, n);
  }

  lemma {:induction false} ThreeParts(a: string, b: string, c: string)
    requires '/' !in a && '/' !in b && '/' !in c
    ensures Split(Under(a, b) + "/" + c, '/') == [a, b, c]
  {
    assert Under(a, b) + "/" + c == a + "/" + (b + "/" + c);
    SplitNone(c, '/');
    SplitCons(b, c, '/');
    SplitCons(a, b + "/" + c, '/');
  }

  ghost predicate IsCloneOf(dataset: string, pool: string, n: string) {
    '/' !in pool && '/' !in n && dataset == pool + "/" + "clone" + "/" + n
  }

  /** Exactly the datasets `<pool>/clone/<name>` are under a recovery root. */
  lemma UnderCloneRootIff(dataset: string)
    ensures UnderCloneRoot(dataset) <==> exists pool, n :: IsCloneOf(dataset, pool, n)
  {
    if UnderCloneRoot(dataset) {
      var parts := Split(dataset, '/');
      InThreeParts(dataset, parts);
      assert IsCloneOf(dataset, parts[0], parts[2]);
    }
    if pool, n :| IsCloneOf(dataset, pool, n) {
      ThreeParts(pool, "clone", n);
    }
  }

  lemma {:induction false} InThreeParts(s: string, parts: seq<string>)
    requires Split(s, '/') == parts && |parts| == 3
    ensures '/' !in parts[0] && '/' !in parts[2] && s == parts[0] + "/" + parts[1] + "/" + parts[2]
  {
    var b := CutOnce(s, parts);
    var c := CutOnce(b, parts[1..]);
    OnlyPart(c, parts[2..]);
    Slashes(parts[0], parts[1], parts[2]);
  }

  lemma Slashes(a: string, b: string, c: string)
    ensures a + ("/" + (b + ("/" + c))) == a + "/" + b + "/" + c
  {
  }

  lemma {:induction false} OnlyPart(s: string, parts: seq<string>)
    requires Split(s, '/') == parts && |parts| == 1
    ensures '/' !in s && s == parts[0]
  {
  }

  lemma CutOnce(s: string, parts: seq<string>) returns (rest: string)
    requires Split(s, '/') == parts && |parts| > 1
    ensures '/' !in parts[0] && s == parts[0] + ("/" + rest) && Split(rest, '/') == parts[1..]
  {
    var i := Find(s, '/');
    rest := s[i + 1..];
    assert s == s[..i] + ("/" + rest);
  }

  lemma PoolOfTarget(pool: string, n: string)
    requires '/' !in pool
    ensures PoolOf(Target(Root(pool), n)) == pool
  {
    var s := Target(Root(pool), n);
    assert s == pool + ['/'] + (RECOVERY_LEAF + "/" + n);
    CutAt(pool, '/', RECOVERY_LEAF + "/" + n, s);
  }

  lemma TargetIsDatasetName(dataset: string, n: string)
    requires IsDatasetName(dataset) && IsVolumeName(n)
    ensures IsDatasetName(Root(PoolOf(dataset)) + "/" + n)
  {
    var pool := PoolOf(dataset);
    assert pool == dataset[..Find(dataset, '/')];
    assert dataset[0] != '/';
  }

  /** A volume identifier of this tool resolves to its clone and is safe to write into a configuration. */
  lemma CloneResolves(h: Host, storage: string, dataset: string, n: string)
    requires IsStorageId(storage) && IsDatasetName(dataset) && IsVolumeName(n)
    requires storage in h.storages && h.storages[storage] == Root(PoolOf(dataset))
    requires Root(PoolOf(dataset)) + "/" + n in h.datasets
    ensures Resolve(h, storage + ":" + n) == Some(Root(PoolOf(dataset)) + "/" + n)
    ensures UnderCloneRoot(Root(PoolOf(dataset)) + "/" + n)
    ensures IsPlainVolid(storage + ":" + n)
  {
    assert ':' !in storage && '/' !in n && '/' !in PoolOf(dataset);
    BasenameOfVolid(storage, n);
    TargetIsUnderCloneRoot(PoolOf(dataset), n);
    TargetIsDatasetName(dataset, n);
    PlainVolid(storage, n);
  }

  lemma PlainVolid(storage: string, n: string)
    requires IsStorageId(storage) && IsVolumeName(n)
    ensures IsPlainVolid(storage + ":" + n)
  {
    assert (storage + ":" + n)[|storage|] == ':';
  }

  // -------------------------------------------------------------- create_job

  datatype Outcome =
    | Refused
    | RootFailed
    | StorageFailed
    | BadVolume(at: nat)
    | CloneFailed(at: nat, why: CloneResult)
    | ConfigFailed
    | Created(guest: Guest)

  function Target(root: string, n: string): string { root + "/" + n }

  ghost function Elements(s: seq<string>): set<string> { set t | t in s }

  /** The first `|created|` disks have their clones, and nothing else changed. */
  ghost predicate Cloned(h: Host, r: Host, disks: seq<Disk>, snapshot: string, created: seq<string>) {
    && r == h.(datasets := h.datasets + Elements(created), snaps := r.snaps, origins := r.origins)
    && |created| <= |disks| && (forall i, j :: 0 <= i < j < |created| ==> created[i] != created[j])
    && (forall t :: t in created ==> t !in h.datasets)
    && r.origins.Keys == h.origins.Keys + Elements(created)
    && (forall d :: d in h.origins && d !in created ==> r.origins[d] == h.origins[d])
    && (forall i :: 0 <= i < |created| ==>
          created[i] in r.origins && r.origins[created[i]] == Snap(disks[i].dataset, snapshot))
  }

  ghost predicate NamedAt(nameOf: Disk -> Option<string>, root: string, d: Disk, target: string) {
    nameOf(d).Some? && target == Target(root, nameOf(d).value)
  }

  ghost predicate Named(disks: seq<Disk>, nameOf: Disk -> Option<string>, root: string, created: seq<string>) {
    |created| <= |disks| && forall i :: 0 <= i < |created| ==> NamedAt(nameOf, root, disks[i], created[i])
  }

  ghost predicate MapsTo(volids: map<string, string>, nameOf: Disk -> Option<string>, storage: string, d: Disk) {
    nameOf(d).Some? && d.volid in volids && volids[d.volid] == storage + ":" + nameOf(d).value
  }

  /** `volid_map` after some disks. */
  ghost predicate Mapping(volids: map<string, string>, disks: seq<Disk>, nameOf: Disk -> Option<string>,
                          storage: string) {
    && (forall v :: v in volids ==> exists d :: d in disks && d.volid == v)
    && (forall d {:trigger MapsTo(volids, nameOf, storage, d)} :: d in disks ==> MapsTo(volids, nameOf, storage, d))
  }

  /** The name of a clone depends on the dataset, so one identifier must always stand for one dataset. */
  ghost predicate Functional(disks: seq<Disk>, nameOf: Disk -> Option<string>) {
    forall c, d {:trigger nameOf(c), nameOf(d)} :: c in disks && d in disks && c.volid == d.volid ==>
      nameOf(c) == nameOf(d)
  }

  lemma ClonedOneMore(h: Host, m: Host, r: Host, disks: seq<Disk>, snapshot: string, created: seq<string>, t: string)
    requires Cloned(h, m, disks, snapshot, created) && |created| < |disks| && t !in m.datasets
    requires r == m.(datasets := m.datasets + {t}, snaps := r.snaps,
                     origins := m.origins[t := Snap(disks[|created|].dataset, snapshot)])
    ensures Cloned(h, r, disks, snapshot, created + [t])
  {
    assert Elements(created + [t]) == Elements(created) + {t};
    forall i | 0 <= i < |created| ensures created[i] != t {
      assert created[i] in Elements(created);
    }
  }

  lemma ElementsFrom(created: seq<string>, i: nat)
    requires i < |created| && forall i, j :: 0 <= i < j < |created| ==> created[i] != created[j]
    ensures Elements(created[i..]) == Elements(created[i + 1..]) + {created[i]}
    ensures created[i] !in Elements(created[i + 1..])
  {
    assert created[i..] == [created[i]] + created[i + 1..];
  }

  ghost predicate HasLost(h: Host, r: Host, gone: set<string>) {
    r == Without(h, gone).(snaps := r.snaps) && r.snaps <= h.snaps
  }

  lemma LessAgain(h: Host, m: Host, r: Host, done: set<string>, failed: set<string>, d: string, ok: bool)
    requires HasLost(h, m, done - failed) && Pruned(Without(m, if ok then {d} else {}), r)
    requires d !in done && failed <= done
    ensures HasLost(h, r, done + {d} - if ok then failed else failed + {d})
  {
    assert done + {d} - failed == done - failed + {d};
    assert done + {d} - (failed + {d}) == done - failed;
    assert Without(Without(h, done - failed), {d}) == Without(h, done - failed + {d});
  }

  /** `_destroy_quietly`: newest first, failures are ignored. */
  method DestroyQuietly(h: Host, created: seq<string>, works: nat -> bool, log: seq<Record>)
    returns (r: Host, ghost failed: set<string>, log': seq<Record>)
    requires Consistent(h) && forall i, j :: 0 <= i < j < |created| ==> created[i] != created[j]
    ensures Issues(log, log', Undo(created)) && Ran(h, log, works, log', r)
    ensures forall t :: t in created ==> (t in failed <==> !Said(log, log', Destroy(t)))
    ensures Consistent(r) && failed <= Elements(created)
    ensures r == Without(h, Elements(created) - failed).(snaps := r.snaps) && r.snaps <= h.snaps
  {
    r, failed, log' := h, {}, log;
    var i := |created|;
    IssueNothing(log);
    ghost var given: seq<Command> := [];
    assert created[..i] == created;
    while i > 0
      invariant 0 <= i <= |created| && Consistent(r) && failed <= Elements(created[i..])
      invariant HasLost(h, r, Elements(created[i..]) - failed)
      invariant Undone(log, log', created, i, given, failed) && Ran(h, log, works, log', r)
    {
      i := i - 1;
      var ok: bool;
      ghost var m, before := r, log';
      r, ok, log' := ZfsDestroy(r, created[i], works, log');
      RanOne(h, log, works, before, m, Record(Destroy(created[i]), ok), r);
      ElementsFrom(created, i);
      LessAgain(h, m, r, Elements(created[i + 1..]), failed, created[i], ok);
      UndoneOne(log, before, created, i, given, failed, ok);
      given := given + [Destroy(created[i])];
      if !ok {
        failed := failed + {created[i]};
      }
    }
    assert created[0..] == created;
  }

  /** The undo has come down to place `i`. */
  ghost predicate Undone(log: seq<Record>, log': seq<Record>, created: seq<string>, i: nat, given: seq<Command>,
                         failed: set<string>) {
    && i <= |created| && Issues(log, log', given) && given + Undo(created[..i]) == Undo(created)
    && (forall c :: c in given ==> c.Destroy? && c.dataset in created[i..])
    && (forall t :: t in failed ==> t in created[i..])
    && (forall t :: t in created[i..] ==> (t in failed <==> !Said(log, log', Destroy(t))))
  }

  lemma UndoneOne(log: seq<Record>, log': seq<Record>, created: seq<string>, i: nat, given: seq<Command>,
                  failed: set<string>, ok: bool)
    requires i < |created| && Undone(log, log', created, i + 1, given, failed)
    requires forall i, j :: 0 <= i < j < |created| ==> created[i] != created[j]
    ensures Undone(log, log' + [Record(Destroy(created[i]), ok)], created, i, given + [Destroy(created[i])],
                   if ok then failed else failed + {created[i]})
  {
    var t, later := created[i], created[i + 1..];
    IssueOne(log, log', Record(Destroy(t), ok), given);
    OnlyThese(log, log', given);
    assert t !in later;
    assert created[i..] == [t] + later && created[..i + 1][..i] == created[..i];
    assert Undo(created[..i + 1]) == [Destroy(t)] + Undo(created[..i]);
    assert given + Undo(created[..i + 1]) == given + [Destroy(t)] + Undo(created[..i]);
  }

  /** Holds on every origin; a failing hold is ignored. Held are those whose command has worked. */
  method HoldAll(h: Host, disks: seq<Disk>, snapshot: string, works: nat -> bool, log: seq<Record>)
    returns (r: Host, ghost held: set<Snap>, log': seq<Record>)
    requires Consistent(h)
    ensures Issues(log, log', Holds(disks, snapshot)) && Ran(h, log, works, log', r)
    ensures forall x :: x in held <==> Said(log, log', Hold(x))
    ensures Consistent(r) && held <= OriginSet(disks, snapshot)
    ensures r == h.(snaps := r.snaps, holds := h.holds + held) && r.snaps <= h.snaps
  {
    r, held, log' := h, {}, log;
    IssueNothing(log);
    for i := 0 to |disks|
      invariant Consistent(r) && held <= OriginSet(disks, snapshot) && Ran(h, log, works, log', r)
      invariant Issues(log, log', Holds(disks[..i], snapshot)) && forall x :: x in held <==> Said(log, log', Hold(x))
      invariant r == h.(snaps := r.snaps, holds := h.holds + held) && r.snaps <= h.snaps
    {
      var x := Snap(disks[i].dataset, snapshot);
      var ok: bool;
      ghost var m, before := r, log';
      r, ok, log' := ZfsHold(r, x, works, log');
      RanOne(h, log, works, before, m, Record(Hold(x), ok), r);
      IssueOne(log, before, Record(Hold(x), ok), Holds(disks[..i], snapshot));
      MapNext(HoldOf(snapshot), disks, i);
      if ok {
        assert disks[i] in disks;
        held := held + {x};
      }
    }
    assert disks[..|disks|] == disks;
  }

  ghost function OriginSet(disks: seq<Disk>, snapshot: string): set<Snap> {
    set d | d in disks :: Snap(d.dataset, snapshot)
  }

  /** What a release reports: all that is still held, save where no query was answered. */
  ghost predicate StillHeld(r: Host, snaps: seq<Snap>, left: seq<Snap>, silent: set<Snap>) {
    forall x :: x in left <==> x in snaps && x in r.holds && x !in silent
  }

  /** `_release_holds`: releases every hold and reports, from a fresh query, what is still held.
      `silent` are the snapshots whose queries all stay silent. */
  method ReleaseHolds(h: Host, snaps: seq<Snap>, works: nat -> bool, log: seq<Record>)
    returns (r: Host, left: seq<Snap>, ghost silent: set<Snap>, log': seq<Record>)
    requires Consistent(h)
    ensures Consistent(r) && r == h.(snaps := r.snaps, holds := r.holds) && r.snaps <= h.snaps
    ensures r.holds <= h.holds && forall x :: x in h.holds && x !in r.holds ==> x in snaps
    ensures Issues(log, log', Releases(snaps) + Asks(snaps)) && Ran(h, log, works, log', r)
    ensures forall x :: x in h.holds ==> (x in r.holds <==> !Said(log, log', Release(x)))
    ensures StillHeld(r, snaps, left, silent)
    ensures forall x :: x in snaps ==> (x in silent <==> !Said(log, log', AskHolds(x)))
  {
    var middle;
    r, middle := ReleaseEach(h, snaps, works, log);
    left, silent, log' := HoldsLeft(r, snaps, works, middle);
    RanJoins(h, log, works, middle, r, log', r);
    Joins(log, middle, log', Releases(snaps), Asks(snaps));
    OnlyThese(log, middle, Releases(snaps));
    OnlyThese(middle, log', Asks(snaps));
    ReleasesAndAsks(snaps);
  }

  lemma ReleasesAndAsks(snaps: seq<Snap>)
    ensures forall c :: c in Releases(snaps) ==> c.Release?
    ensures forall c :: c in Asks(snaps) ==> c.AskHolds?
  {
    forall c | c in Releases(snaps) ensures c.Release? {
      var i :| 0 <= i < |snaps| && Releases(snaps)[i] == c;
      assert c == ReleaseOf(snaps[i]);
    }
    forall c | c in Asks(snaps) ensures c.AskHolds? {
      var i :| 0 <= i < |snaps| && Asks(snaps)[i] == c;
      assert c == AskOf(snaps[i]);
    }
  }

  /** Only commands that were given can have worked. */
  lemma OnlyThese(before: seq<Record>, after: seq<Record>, commands: seq<Command>)
    requires Issues(before, after, commands)
    ensures forall c :: Said(before, after, c) ==> c in commands
  {
    forall c | Said(before, after, c) ensures c in commands {
      var new_ := after[|before|..];
      var i :| 0 <= i < |new_| && new_[i] == Record(c, true);
      assert CommandOf(new_[i]) == c && Commands(new_)[i] == c;
    }
  }

  method ReleaseEach(h: Host, snaps: seq<Snap>, works: nat -> bool, log: seq<Record>)
    returns (r: Host, log': seq<Record>)
    requires Consistent(h)
    ensures Consistent(r) && r == h.(snaps := r.snaps, holds := r.holds) && r.snaps <= h.snaps
    ensures r.holds <= h.holds && forall x :: x in h.holds && x !in r.holds ==> x in snaps
    ensures Issues(log, log', Releases(snaps)) && Ran(h, log, works, log', r)
    ensures forall x :: x in h.holds ==> (x in r.holds <==> !Said(log, log', Release(x)))
  {
    r, log' := h, log;
    IssueNothing(log);
    for i := 0 to |snaps|
      invariant Consistent(r) && r == h.(snaps := r.snaps, holds := r.holds) && r.snaps <= h.snaps
      invariant r.holds <= h.holds && forall x :: x in h.holds && x !in r.holds ==> x in snaps
      invariant Issues(log, log', Releases(snaps[..i])) && Ran(h, log, works, log', r)
      invariant forall x :: x in h.holds ==> (x in r.holds <==> !Said(log, log', Release(x)))
    {
      var ok: bool;
      ghost var m, before := r, log';
      r, ok, log' := ZfsRelease(r, snaps[i], works, log');
      RanOne(h, log, works, before, m, Record(Release(snaps[i]), ok), r);
      IssueOne(log, before, Record(Release(snaps[i]), ok), Releases(snaps[..i]));
      MapNext(ReleaseOf, snaps, i);
    }
    assert snaps[..|snaps|] == snaps;
  }

  /** `_holds_left` */
  method HoldsLeft(h: Host, snaps: seq<Snap>, works: nat -> bool, log: seq<Record>)
    returns (left: seq<Snap>, ghost silent: set<Snap>, log': seq<Record>)
    ensures Issues(log, log', Asks(snaps)) && Ran(h, log, works, log', h)
    ensures StillHeld(h, snaps, left, silent)
    ensures forall x :: x in snaps ==> (x in silent <==> !Said(log, log', AskHolds(x)))
  {
    left, log' := [], log;
    ghost var answered: set<Snap> := {};
    IssueNothing(log);
    for i := 0 to |snaps|
      invariant forall x :: x in answered ==> x in snaps
      invariant forall x :: x in left <==> x in answered && x in h.holds
      invariant Issues(log, log', Asks(snaps[..i])) && forall x :: x in answered <==> Said(log, log', AskHolds(x))
      invariant Ran(h, log, works, log', h)
    {
      var heard := works(|log'|);
      AskMore(h, log, works, log', h, AskHolds(snaps[i]), Asks(snaps[..i]));
      MapNext(AskOf, snaps, i);
      log' := log' + [Record(AskHolds(snaps[i]), heard)];
      if heard {
        answered := answered + {snaps[i]};
        if snaps[i] in h.holds {
          left := left + [snaps[i]];
        }
      }
    }
    assert snaps[..|snaps|] == snaps;
    silent := (set x | x in snaps) - answered;
  }

  /** Disks up to `|created|` are cloned and mapped. */
  ghost predicate Progress(h: Host, r: Host, disks: seq<Disk>, nameOf: Disk -> Option<string>, root: string,
                           storage: string, snapshot: string, created: seq<string>, volids: map<string, string>) {
    && Consistent(r) && r.snaps <= h.snaps
    && Named(disks, nameOf, root, created) && Cloned(h, r, disks, snapshot, created)
    && Mapping(volids, disks[..|created|], nameOf, storage)
  }

  /** One round of the clone loop for a disk with a PVE name. */
  method CloneNext(ghost h: Host, m: Host, disks: seq<Disk>, nameOf: Disk -> Option<string>, root: string,
                   storage: string, snapshot: string, created: seq<string>, volids: map<string, string>,
                   ghost start: seq<Record>, works: nat -> bool, log: seq<Record>)
    returns (r: Host, ok: bool, why: CloneResult, created': seq<string>, volids': map<string, string>,
             log': seq<Record>)
    requires Progress(h, m, disks, nameOf, root, storage, snapshot, created, volids) && Ran(h, start, works, log, m)
    requires Functional(disks, nameOf) && |created| < |disks|
    requires nameOf(disks[|created|]).Some? && '/' !in nameOf(disks[|created|]).value
    requires Issues(start, log, Clones(disks[..|created|], nameOf, root, snapshot))
    ensures Issues(start, log', Clones(disks[..|created| + 1], nameOf, root, snapshot)) && Ran(h, start, works, log', r)
    ensures why.NoOrigin? ==> Snap(disks[|created|].dataset, snapshot) !in h.holds
    ensures |created'| == if ok then |created| + 1 else |created|
    ensures Progress(h, r, disks, nameOf, root, storage, snapshot, created', volids')
    ensures created <= created'
  {
    var d := disks[|created|];
    var target := Target(root, nameOf(d).value);
    r, ok, why, log' := ZfsClone(m, Snap(d.dataset, snapshot), target, works, log);
    RanOne(h, start, works, log, m, Record(CloneTo(Snap(d.dataset, snapshot), target), ok), r);
    IssueClone(start, log, disks, nameOf, root, snapshot, |created|, ok);
    created', volids' := created, volids;
    if ok {
      ClonedOneMore(h, m, r, disks, snapshot, created, target);
      MappingOneMore(volids, disks, |created|, nameOf, storage);
      LastPartOf(root, nameOf(d).value);
      created', volids' := created + [target], volids[d.volid := storage + ":" + LastPart(target)];
    }
  }

  /** What the clone loop says: one clone command per disk, up to the one that fails, which is
      followed by the undo; none for a volume without a PVE name, and no undo then. */
  function CloneScript(disks: seq<Disk>, nameOf: Disk -> Option<string>, root: string, snapshot: string,
                       created: seq<string>, failure: Option<Outcome>): seq<Command>
    requires |created| <= |disks|
  {
    Clones(Attempted(disks, created, failure), nameOf, root, snapshot)
    + if failure.Some? && failure.value.CloneFailed? then Undo(created) else []
  }

  lemma IssueClone(log: seq<Record>, before: seq<Record>, disks: seq<Disk>, nameOf: Disk -> Option<string>,
                   root: string, snapshot: string, n: nat, ok: bool)
    requires n < |disks| && Issues(log, before, Clones(disks[..n], nameOf, root, snapshot))
    ensures Issues(log, before + [Record(CloneCommand(nameOf, root, snapshot)(disks[n]), ok)],
                   Clones(disks[..n + 1], nameOf, root, snapshot))
  {
    var c := CloneCommand(nameOf, root, snapshot)(disks[n]);
    IssueOne(log, before, Record(c, ok), Clones(disks[..n], nameOf, root, snapshot));
    MapNext(CloneCommand(nameOf, root, snapshot), disks, n);
  }

  lemma {:induction false} UndoneScript(log: seq<Record>, middle: seq<Record>, log': seq<Record>, disks: seq<Disk>,
                                        nameOf: Disk -> Option<string>, root: string, snapshot: string,
                                        created: seq<string>)
    requires Issues(log, middle, Clones(disks, nameOf, root, snapshot)) && Issues(middle, log', Undo(created))
    ensures Issues(log, log', Clones(disks, nameOf, root, snapshot) + Undo(created))
    ensures forall t :: Said(log, log', Destroy(t)) <==> Said(middle, log', Destroy(t))
  {
    Joins(log, middle, log', Clones(disks, nameOf, root, snapshot), Undo(created));
    OnlyThese(log, middle, Clones(disks, nameOf, root, snapshot));
  }

  /** The clone loop. A volume without a PVE name raises and skips the undo; a
      failing clone undoes the clones before it. `left` are the clones that remain.
      An origin that is held is there when its clone is made. */
  method CloneAll(h: Host, disks: seq<Disk>, nameOf: Disk -> Option<string>, root: string, storage: string,
                  snapshot: string, works: nat -> bool, log: seq<Record>)
    returns (r: Host, failure: Option<Outcome>, created: seq<string>, volids: map<string, string>,
             ghost left: set<string>, ghost undoFailed: set<string>, log': seq<Record>)
    requires Consistent(h) && Functional(disks, nameOf)
    requires forall d :: d in disks && nameOf(d).Some? ==> '/' !in nameOf(d).value
    ensures Consistent(r) && Named(disks, nameOf, root, created) && undoFailed <= Elements(created)
    ensures r == h.(datasets := h.datasets + left, snaps := r.snaps, origins := r.origins) && r.snaps <= h.snaps
    ensures left !! h.datasets
    ensures failure.None? ==> |created| == |disks| && left == Elements(created)
    ensures failure.None? ==> Cloned(h, r, disks, snapshot, created) && Mapping(volids, disks, nameOf, storage)
    ensures failure.Some? ==> |created| < |disks|
    ensures failure.Some? ==>
      if nameOf(disks[|created|]).None? then failure.value == BadVolume(|created|) && left == Elements(created)
      else failure.value.CloneFailed? && failure.value.at == |created| && left == undoFailed
    ensures failure.Some? && failure.value.CloneFailed? && failure.value.why.NoOrigin? ==>
      Snap(disks[|created|].dataset, snapshot) !in h.holds
    ensures Issues(log, log', CloneScript(disks, nameOf, root, snapshot, created, failure))
    ensures Ran(h, log, works, log', r)
    ensures failure.Some? && failure.value.CloneFailed? ==>
      forall t :: t in created ==> (t in undoFailed <==> !Said(log, log', Destroy(t)))
  {
    left, undoFailed := {}, {};
    r, failure, created, volids, log' := CloneEach(h, disks, nameOf, root, storage, snapshot, works, log);
    left := Elements(created);
    if failure.Some? && failure.value.CloneFailed? {
      ghost var m, middle := r, log';
      r, undoFailed, log' := UndoClones(h, r, disks, snapshot, created, works, log');
      RanJoins(h, log, works, middle, m, log', r);
      UndoneScript(log, middle, log', disks[..|created| + 1], nameOf, root, snapshot, created);
      left := undoFailed;
    }
    assert disks[..|disks|] == disks;
  }

  /** The loop itself, up to the first failure. */
  method CloneEach(h: Host, disks: seq<Disk>, nameOf: Disk -> Option<string>, root: string, storage: string,
                   snapshot: string, works: nat -> bool, log: seq<Record>)
    returns (r: Host, failure: Option<Outcome>, created: seq<string>, volids: map<string, string>,
             log': seq<Record>)
    requires Consistent(h) && Functional(disks, nameOf)
    requires forall d :: d in disks && nameOf(d).Some? ==> '/' !in nameOf(d).value
    ensures |created| <= |disks| && Progress(h, r, disks, nameOf, root, storage, snapshot, created, volids)
    ensures failure.None? ==> |created| == |disks|
    ensures failure.Some? ==> |created| < |disks|
    ensures failure.Some? ==>
      if nameOf(disks[|created|]).None? then failure.value == BadVolume(|created|)
      else failure.value.CloneFailed? && failure.value.at == |created|
    ensures failure.Some? && failure.value.CloneFailed? && failure.value.why.NoOrigin? ==>
      Snap(disks[|created|].dataset, snapshot) !in h.holds
    ensures Issues(log, log', Clones(Attempted(disks, created, failure), nameOf, root, snapshot))
    ensures Ran(h, log, works, log', r)
  {
    r, failure, created, volids, log' := h, None, [], map[], log;
    IssueNothing(log);
    while |created| < |disks|
      invariant |created| <= |disks| && failure.None? && Ran(h, log, works, log', r)
      invariant Issues(log, log', Clones(disks[..|created|], nameOf, root, snapshot))
      invariant Progress(h, r, disks, nameOf, root, storage, snapshot, created, volids)
      decreases |disks| - |created|
    {
      if nameOf(disks[|created|]).None? {
        failure := Some(BadVolume(|created|));
        return;
      }
      var ok: bool;
      var why: CloneResult;
      r, ok, why, created, volids, log' :=
        CloneNext(h, r, disks, nameOf, root, storage, snapshot, created, volids, log, works, log');
      if !ok {
        failure := Some(CloneFailed(|created|, why));
        return;
      }
    }
  }

  /** The disks for which a clone command is given. */
  function Attempted(disks: seq<Disk>, created: seq<string>, failure: Option<Outcome>): seq<Disk>
    requires |created| <= |disks|
  {
    if failure.Some? && failure.value.CloneFailed? && |created| < |disks| then disks[..|created| + 1]
    else disks[..|created|]
  }

  /** Undoing leaves exactly the clones whose destruction failed. */
  method UndoClones(ghost h: Host, m: Host, disks: seq<Disk>, snapshot: string, created: seq<string>,
                    works: nat -> bool, log: seq<Record>)
    returns (r: Host, ghost failed: set<string>, log': seq<Record>)
    requires Consistent(m) && Cloned(h, m, disks, snapshot, created)
    ensures Consistent(r) && failed <= Elements(created) && failed !! h.datasets
    ensures r == h.(datasets := h.datasets + failed, snaps := r.snaps, origins := r.origins) && r.snaps <= m.snaps
    ensures Issues(log, log', Undo(created)) && Ran(m, log, works, log', r)
    ensures forall t :: t in created ==> (t in failed <==> !Said(log, log', Destroy(t)))
  {
    r, failed, log' := DestroyQuietly(m, created, works, log);
  }

  lemma MappingOneMore(volids: map<string, string>, disks: seq<Disk>, k: nat, nameOf: Disk -> Option<string>,
                       storage: string)
    requires k < |disks| && Functional(disks, nameOf) && Mapping(volids, disks[..k], nameOf, storage)
    requires nameOf(disks[k]).Some?
    ensures Mapping(volids[disks[k].volid := storage + ":" + nameOf(disks[k]).value], disks[..k + 1], nameOf, storage)
  {
    var more := volids[disks[k].volid := storage + ":" + nameOf(disks[k]).value];
    assert disks[..k + 1] == disks[..k] + [disks[k]];
    forall d | d in disks[..k + 1] ensures MapsTo(more, nameOf, storage, d) {
      if d in disks[..k] {
        assert MapsTo(volids, nameOf, storage, d);
      }
    }
    forall v | v in more ensures exists d :: d in disks[..k + 1] && d.volid == v {
      if v != disks[k].volid {
        var d :| d in disks[..k] && d.volid == v;
        assert d in disks[..k + 1];
      } else {
        assert disks[k] in disks[..k + 1];
      }
    }
  }
}
