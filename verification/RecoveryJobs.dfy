/** `create_job` and `destroy_job` of `app/recovery_guest.py`, and how one undoes the other. */
module RecoveryJobs {
  import opened Text
  import opened GuestConfig
  import opened GuestMarker
  import opened RecoveryGuest

  ghost predicate WellFormed(h: Host) {
    Consistent(h) && forall s :: s in h.storages ==> IsStorageId(s)
  }

  // ----------------------------------------------------- what a host says of a guest

  /** `read_guest_config` finds a file that is not blank. */
  predicate Readable(h: Host, guest: Guest) {
    guest in h.configs && exists l :: l in h.configs[guest] && Strip(l) != []
  }

  function Main(h: Host, guest: Guest): seq<string> {
    if guest in h.configs then MainSection(h.configs[guest]) else []
  }

  /** The attached volumes of a guest, as its configuration names them. */
  function Attached(h: Host, guest: Guest): seq<Entry> { DisksOf(Main(h, guest), guest.lxc) }

  /** Their datasets, as far as they resolve. */
  function Disks(h: Host, guest: Guest): seq<Disk> { DisksIn(h, Attached(h, guest)) }

  function DiskDatasets(h: Host, guest: Guest): set<string> { set d | d in Disks(h, guest) :: d.dataset }

  lemma DisksInAll(h: Host, entries: seq<Entry>)
    requires AllResolve(h, entries)
    ensures |DisksIn(h, entries)| == |entries|
    ensures forall i :: 0 <= i < |entries| ==> Resolver(h)(entries[i]) == Some(DisksIn(h, entries)[i])
  {
    forall i | 0 <= i < |entries| ensures Resolver(h)(entries[i]).Some? {
      assert entries[i] in entries;
    }
    CollectAll(Resolver(h), entries);
  }

  /** The two proofs `destroy_job` asks for: the marker, and every attached disk under a recovery root. */
  predicate Proven(h: Host, guest: Guest) {
    && Readable(h, guest) && ParseMarker(h.configs[guest]).Some?
    && AllResolve(h, Attached(h, guest)) && forall d :: d in Disks(h, guest) ==> UnderCloneRoot(d.dataset)
  }

  // ------------------------------------------------------------------ create_job

  /** `^[A-Za-z0-9_.:-]+$` */
  predicate IsLabel(s: string) {
    s != [] && forall i :: 0 <= i < |s| ==> IsNameChar(s[i]) && s[i] != '/'
  }

  lemma LabelIff(s: string)
    ensures IsLabel(s) <==>
      && s != []
      && forall c :: c in s ==>
           'A' <= c <= 'Z' || 'a' <= c <= 'z' || '0' <= c <= '9' || c == '_' || c == '.' || c == ':' || c == '-'
  {
    if IsLabel(s) {
      forall c | c in s ensures IsNameChar(c) && c != '/' {
        var i :| 0 <= i < |s| && s[i] == c;
      }
    }
    assert forall i :: 0 <= i < |s| ==> s[i] in s;
  }

  /** The configuration is there and none of a recovery guest, and all disks are known and on one pool. */
  predicate Clonable(h: Host, origin: Guest) {
    && Readable(h, origin) && ParseMarker(h.configs[origin]).None?
    && AllResolve(h, Attached(h, origin)) && Disks(h, origin) != []
    && forall d :: d in Disks(h, origin) ==> PoolOf(d.dataset) == PoolOf(Disks(h, origin)[0].dataset)
  }

  /** Everything `create_job` demands before it changes anything, save the snapshots and a free identifier. */
  predicate Acceptable(h: Host, origin: Guest, snapshot: string, vmid: string) {
    IsLabel(snapshot) && Numeric(origin.vmid) && Clonable(h, origin) && Numeric(vmid) && vmid != origin.vmid
  }

  function CheckOf(snapshot: string): Disk -> Command { (d: Disk) => AskSnapshot(Snap(d.dataset, snapshot)) }

  function Checks(disks: seq<Disk>, snapshot: string): seq<Command> { MapSeq(CheckOf(snapshot), disks) }

  /** Every disk has been found to have the snapshot. */
  ghost predicate Listed(log: seq<Record>, log': seq<Record>, disks: seq<Disk>, snapshot: string) {
    forall d :: d in disks ==> Said(log, log', AskSnapshot(Snap(d.dataset, snapshot)))
  }

  /** Some disk has not. */
  ghost predicate Unlisted(log: seq<Record>, log': seq<Record>, disks: seq<Disk>, snapshot: string) {
    exists d :: d in disks && Unsaid(log, log', AskSnapshot(Snap(d.dataset, snapshot)))
  }

  /** `_snapshots_of`, and whether the label is among them. */
  method HasSnapshot(h: Host, x: Snap, works: nat -> bool, log: seq<Record>)
    returns (r: Host, ok: bool, log': seq<Record>)
    requires Consistent(h)
    ensures log' == log + [Record(AskSnapshot(x), ok)] && StepOf(h, AskSnapshot(x), works(|log|), ok, r)
    ensures Pruned(h, r) && Consistent(r)
  {
    r := Interfere(h);
    ok := works(|log|) && x in r.snaps;
    log' := log + [Record(AskSnapshot(x), ok)];
  }

  method CheckSnapshots(h: Host, disks: seq<Disk>, snapshot: string, works: nat -> bool, log: seq<Record>)
    returns (r: Host, ok: bool, ghost asked: nat, log': seq<Record>)
    requires Consistent(h)
    ensures Consistent(r) && r == h.(snaps := r.snaps) && r.snaps <= h.snaps && Ran(h, log, works, log', r)
    ensures asked <= |disks| && Issues(log, log', Checks(disks[..asked], snapshot))
    ensures ok ==> asked == |disks| && Listed(log, log', disks, snapshot)
    ensures !ok ==> Unlisted(log, log', disks, snapshot)
  {
    r, ok, log', asked := h, true, log, 0;
    IssueNothing(log);
    for i := 0 to |disks|
      invariant Consistent(r) && r == h.(snaps := r.snaps) && r.snaps <= h.snaps && Ran(h, log, works, log', r)
      invariant ok && asked == i && Issues(log, log', Checks(disks[..i], snapshot))
      invariant Listed(log, log', disks[..i], snapshot)
    {
      var x := Snap(disks[i].dataset, snapshot);
      ghost var m, before := r, log';
      r, ok, log' := HasSnapshot(r, x, works, log');
      RanOne(h, log, works, before, m, Record(AskSnapshot(x), ok), r);
      IssueOne(log, before, Record(AskSnapshot(x), ok), Checks(disks[..i], snapshot));
      MapNext(CheckOf(snapshot), disks, i);
      asked := i + 1;
      if !ok {
        assert disks[i] in disks && log'[|log'| - 1] == Record(AskSnapshot(x), false);
        return;
      }
      assert disks[..i + 1] == disks[..i] + [disks[i]];
    }
    assert disks[..|disks|] == disks;
  }

  /** The recovery root and its storage entry: made when missing, and never undone. */
  method Prepare(h: Host, pool: string, works: nat -> bool, log: seq<Record>)
    returns (r: Host, failure: Option<Outcome>, storage: string, ghost made: bool, ghost added: bool,
             log': seq<Record>)
    requires WellFormed(h)
    ensures r.snaps <= h.snaps && r.holds == h.holds
    ensures if failure.None? then Prepared(h, r, pool, storage) else Abandoned(h, r, pool, {})
    ensures failure.Some? ==> failure.value.RootFailed? || failure.value.StorageFailed?
    ensures Ran(h, log, works, log', r) && PreparationIsSaid(h, log, log', pool, failure, made, added)
  {
    var ok, middle;
    failure, storage, added := None, "", false;
    r, ok, made, middle := EnsureRoot(h, Root(pool), works, log);
    log' := middle;
    if !ok {
      failure := Some(RootFailed);
      return;
    }
    ghost var m := r;
    r, ok, storage, added, log' := EnsureStorage(r, pool, works, middle);
    RanJoins(h, log, works, middle, m, log', r);
    JoinTwo(log, middle, log', RootScript(Root(pool), made), StorageScript(pool, added));
    if !ok {
      failure := Some(StorageFailed);
    }
  }

  function RootScript(root: string, made: bool): seq<Command> {
    [AskDataset(root)] + if made then [CreateDataset(root)] else []
  }

  function StorageScript(pool: string, added: bool): seq<Command> {
    [AskStorage(Root(pool))] + if added then [AddStorage(StorageIdFor(pool), Root(pool))] else []
  }

  /** The root is created, and a storage added, exactly when none is heard of. */
  ghost predicate PreparationIsSaid(h: Host, log: seq<Record>, log': seq<Record>, pool: string,
                                    failure: Option<Outcome>, made: bool, added: bool) {
    var root := Root(pool);
    && Issues(log, log', RootScript(root, made)
                         + if failure == Some(RootFailed) then [] else StorageScript(pool, added))
    && (made <==> !(root in h.datasets && Said(log, log', AskDataset(root))))
    && (failure == Some(RootFailed) <==> made && !Said(log, log', CreateDataset(root)))
    && (failure != Some(RootFailed) ==>
          && (added <==> !(root in h.storages.Values && Said(log, log', AskStorage(root))))
          && (failure == Some(StorageFailed) <==> added && !Said(log, log', AddStorage(StorageIdFor(pool), root))))
  }

  method EnsureRoot(h: Host, root: string, works: nat -> bool, log: seq<Record>)
    returns (r: Host, ok: bool, ghost made: bool, log': seq<Record>)
    requires WellFormed(h)
    ensures WellFormed(r) && Ran(h, log, works, log', r) && Issues(log, log', RootScript(root, made))
    ensures r == h.(datasets := r.datasets, snaps := r.snaps) && r.snaps <= h.snaps
    ensures h.datasets <= r.datasets <= h.datasets + {root} && (ok ==> root in r.datasets)
    ensures made <==> !(root in h.datasets && Said(log, log', AskDataset(root)))
    ensures ok <==> !made || Said(log, log', CreateDataset(root))
  {
    r, ok := h, true;
    var heard := works(|log|);
    log' := log + [Record(AskDataset(root), heard)];
    Asked(h, log, works, AskDataset(root));
    made := !(heard && root in h.datasets);
    if !(heard && root in h.datasets) {
      ghost var before := log';
      r, ok, log' := ZfsCreate(r, root, works, log');
      IssueOne(log, before, Record(CreateDataset(root), ok), [AskDataset(root)]);
      RanOne(h, log, works, before, h, Record(CreateDataset(root), ok), r);
    }
  }

  /** A query is the first thing said. */
  lemma Asked(h: Host, log: seq<Record>, works: nat -> bool, c: Command)
    requires IsQuery(c)
    ensures Issues(log, log + [Record(c, works(|log|))], [c]) && Ran(h, log, works, log + [Record(c, works(|log|))], h)
    ensures forall k :: Said(log, log + [Record(c, works(|log|))], k) <==> k == c && works(|log|)
  {
    IssueNothing(log);
    IssueOne(log, log, Record(c, works(|log|)), []);
    RanQuery(h, log, works, log, h, c);
  }

  /** Of several storages on the root any one may be chosen. */
  method EnsureStorage(h: Host, pool: string, works: nat -> bool, log: seq<Record>)
    returns (r: Host, ok: bool, storage: string, ghost added: bool, log': seq<Record>)
    requires WellFormed(h)
    ensures WellFormed(r) && Ran(h, log, works, log', r) && Issues(log, log', StorageScript(pool, added))
    ensures r == h.(storages := r.storages, snaps := r.snaps) && r.snaps <= h.snaps
    ensures ok ==> storage in r.storages && r.storages[storage] == Root(pool)
    ensures forall s :: s in h.storages ==> s in r.storages && r.storages[s] == h.storages[s]
    ensures added <==> !(Root(pool) in h.storages.Values && Said(log, log', AskStorage(Root(pool))))
    ensures ok <==> !added || Said(log, log', AddStorage(StorageIdFor(pool), Root(pool)))
  {
    var root := Root(pool);
    r, ok := h, true;
    var heard := works(|log|);
    log' := log + [Record(AskStorage(root), heard)];
    Asked(h, log, works, AskStorage(root));
    var found := None;
    if s :| s in h.storages && h.storages[s] == root {
      found := Some(s);
    }
    added := !(heard && found.Some?);
    if heard && found.Some? {
      storage := found.value;
    } else {
      storage := StorageIdFor(pool);
      ghost var before := log';
      r, ok, log' := PvesmAdd(r, storage, root, works, log');
      IssueOne(log, before, Record(AddStorage(storage, root), ok), [AskStorage(root)]);
      RanOne(h, log, works, before, h, Record(AddStorage(storage, root), ok), r);
    }
  }

  function Namer(vmid: string): Disk -> Option<string> { (d: Disk) => CloneVolumeName(d.dataset, vmid) }

  function Origins(disks: seq<Disk>, snapshot: string): seq<Snap> {
    seq(|disks|, i requires 0 <= i < |disks| => Snap(disks[i].dataset, snapshot))
  }

  lemma DiskIsResolved(h: Host, entries: seq<Entry>, d: Disk)
    requires d in DisksIn(h, entries)
    ensures Resolve(h, d.volid) == Some(d.dataset)
  {
    CollectMember(Resolver(h), entries, d);
  }

  lemma NamesAreSafe(h: Host, entries: seq<Entry>, vmid: string)
    requires Numeric(vmid) && AllResolve(h, entries)
    ensures Functional(DisksIn(h, entries), Namer(vmid))
    ensures forall d :: d in DisksIn(h, entries) && Namer(vmid)(d).Some? ==>
              IsVolumeName(Namer(vmid)(d).value) && '/' !in Namer(vmid)(d).value
  {
    forall c, d | c in DisksIn(h, entries) && d in DisksIn(h, entries) && c.volid == d.volid
      ensures Namer(vmid)(c) == Namer(vmid)(d)
    {
      DiskIsResolved(h, entries, c);
      DiskIsResolved(h, entries, d);
    }
    forall d | d in DisksIn(h, entries) && Namer(vmid)(d).Some?
      ensures IsVolumeName(Namer(vmid)(d).value) && '/' !in Namer(vmid)(d).value
    {
      CloneNameShape(d.dataset, vmid);
    }
  }

  // ------------------------------------------------- the recovery guest is provable

  lemma AttachedVolume(main: seq<string>, lxc: bool, e: Entry)
    requires e in DisksOf(main, lxc)
    ensures e.value != [] && ':' in e.value && e.value != "none" && !Contains(e.value, CDROM)
  {
    CollectMember(DiskReader(lxc), main, e);
    var i :| 0 <= i < |main| && DiskReader(lxc)(main[i]) == Some(e);
    var value := Strip(EntryOf(Strip(main[i])).value.value);
    VolidOccurs(value);
  }

  lemma VolidOccurs(value: string)
    requires !Contains(value, CDROM)
    ensures !Contains(Volid(value), CDROM)
  {
    var i, j := StripIsPart(Before(value, ','));
    assert Volid(value) == value[i..j];
    ContainsInPart(value, CDROM, i, j);
  }

  /** A volume that may be written over in a configuration. */
  ghost predicate IsVolume(v: string) {
    v != [] && v[0] != '/' && ':' in v && v != "none" && !Contains(v, CDROM)
  }

  lemma ResolvedStart(h: Host, v: string)
    requires WellFormed(h) && Resolve(h, v).Some?
    ensures v != [] && v[0] != '/'
  {
    assert Before(v, ':') in h.storages;
    assert v[0] == Before(v, ':')[0];
  }

  lemma AttachedAreVolumes(h: Host, guest: Guest)
    requires WellFormed(h) && AllResolve(h, Attached(h, guest))
    ensures forall e :: e in Attached(h, guest) ==> IsVolume(e.value)
  {
    forall e | e in Attached(h, guest) ensures IsVolume(e.value) {
      AttachedVolume(Main(h, guest), guest.lxc, e);
      ResolvedStart(h, e.value);
    }
  }

  /** The disks stand for the entries, position by position. */
  ghost predicate Stand(entries: seq<Entry>, disks: seq<Disk>) {
    |entries| == |disks| && forall i :: 0 <= i < |disks| ==>
      disks[i].key == entries[i].key && disks[i].volid == entries[i].value
  }

  lemma DisksStand(h: Host, entries: seq<Entry>)
    requires AllResolve(h, entries)
    ensures Stand(entries, DisksIn(h, entries))
  {
    DisksInAll(h, entries);
  }

  /** Every clone of the mapping is a volume that resolves under the recovery root. */
  ghost predicate Backed(res: string -> Option<string>, nameOf: Disk -> Option<string>, root: string, storage: string,
                         d: Disk) {
    && nameOf(d).Some? && IsPlainVolid(storage + ":" + nameOf(d).value)
    && res(storage + ":" + nameOf(d).value) == Some(Target(root, nameOf(d).value))
    && UnderCloneRoot(Target(root, nameOf(d).value))
  }

  ghost predicate AllBacked(res: string -> Option<string>, disks: seq<Disk>, nameOf: Disk -> Option<string>,
                            root: string, storage: string) {
    forall i :: 0 <= i < |disks| ==> Backed(res, nameOf, root, storage, disks[i])
  }

  lemma MappingIsVolidMap(entries: seq<Entry>, disks: seq<Disk>, res: string -> Option<string>,
                          volids: map<string, string>, nameOf: Disk -> Option<string>, root: string, storage: string)
    requires Stand(entries, disks) && forall e :: e in entries ==> IsVolume(e.value)
    requires Mapping(volids, disks, nameOf, storage) && AllBacked(res, disks, nameOf, root, storage)
    ensures IsVolidMap(volids) && forall e :: e in entries ==> e.value in volids
  {
    forall v | v in volids ensures IsPlainVolid(volids[v]) && IsVolume(v) {
      var d :| d in disks && d.volid == v;
      assert MapsTo(volids, nameOf, storage, d);
      var i :| 0 <= i < |disks| && disks[i] == d;
      assert Backed(res, nameOf, root, storage, disks[i]);
      assert entries[i] in entries;
    }
    forall e | e in entries ensures e.value in volids {
      var i :| 0 <= i < |entries| && entries[i] == e;
      assert MapsTo(volids, nameOf, storage, disks[i]);
    }
  }

  /** The disks of the recovery guest: one clone for each of the first disks of the origin. */
  ghost predicate ClonesOf(r: Host, g: Guest, disks: seq<Disk>, clones: seq<string>) {
    && |Disks(r, g)| == |Attached(r, g)| <= |disks| == |clones|
    && forall i :: 0 <= i < |Disks(r, g)| ==> Disks(r, g)[i].key == disks[i].key && Disks(r, g)[i].dataset == clones[i]
  }

  function Lookup(h: Host): string -> Option<string> { (v: string) => Resolve(h, v) }

  ghost predicate Reads(res: string -> Option<string>, e: Entry, key: string, dataset: string) {
    e.key == key && res(e.value) == Some(dataset) && UnderCloneRoot(dataset)
  }

  lemma CloneEntriesRead(entries: seq<Entry>, disks: seq<Disk>, mine: seq<Entry>, res: string -> Option<string>,
                         volids: map<string, string>, nameOf: Disk -> Option<string>, root: string, storage: string,
                         clones: seq<string>)
    requires Stand(entries, disks) && Mapping(volids, disks, nameOf, storage)
    requires AllBacked(res, disks, nameOf, root, storage)
    requires Named(disks, nameOf, root, clones) && |clones| == |disks| && mine <= MapSeq(ToClone(volids), entries)
    ensures forall i :: 0 <= i < |mine| ==> Reads(res, mine[i], disks[i].key, clones[i])
  {
    forall i | 0 <= i < |mine| ensures Reads(res, mine[i], disks[i].key, clones[i]) {
      assert mine[i] == MapSeq(ToClone(volids), entries)[i];
      assert MapsTo(volids, nameOf, storage, disks[i]);
      assert Backed(res, nameOf, root, storage, disks[i]);
      assert NamedAt(nameOf, root, disks[i], clones[i]);
    }
  }

  lemma ReadsResolve(r: Host, mine: seq<Entry>, disks: seq<Disk>, clones: seq<string>)
    requires |mine| <= |disks| == |clones|
    requires forall i :: 0 <= i < |mine| ==> Reads(Lookup(r), mine[i], disks[i].key, clones[i])
    ensures AllResolve(r, mine)
  {
    forall e | e in mine ensures Lookup(r)(e.value).Some? {
      var i :| 0 <= i < |mine| && mine[i] == e;
      assert Reads(Lookup(r), mine[i], disks[i].key, clones[i]);
    }
  }

  lemma ReadDisks(r: Host, g: Guest, disks: seq<Disk>, clones: seq<string>)
    requires |Attached(r, g)| <= |disks| == |clones|
    requires forall i :: 0 <= i < |Attached(r, g)| ==> Reads(Lookup(r), Attached(r, g)[i], disks[i].key, clones[i])
    ensures AllResolve(r, Attached(r, g)) && ClonesOf(r, g, disks, clones)
    ensures forall d :: d in Disks(r, g) ==> UnderCloneRoot(d.dataset)
  {
    var mine := Attached(r, g);
    ReadsResolve(r, mine, disks, clones);
    DisksInAll(r, mine);
    forall i | 0 <= i < |mine|
      ensures Disks(r, g)[i].key == disks[i].key && Disks(r, g)[i].dataset == clones[i] && UnderCloneRoot(clones[i]) {
      assert Reads(Lookup(r), mine[i], disks[i].key, clones[i]);
    }
  }

  /** The recovery guest was written by `create_job` and can be recognised and traced. */
  lemma RecoveryIsProven(r: Host, g: Guest, m: Marker, rest: seq<string>)
    requires g in r.configs && r.configs[g] == [MarkerLine(m)] + rest && IsPlainMarker(m)
    requires AllResolve(r, Attached(r, g)) && forall d :: d in Disks(r, g) ==> UnderCloneRoot(d.dataset)
    ensures Proven(r, g)
  {
    MarkerRoundTrip(m, rest);
    MarkerStarts(m);
    assert MarkerLine(m) in r.configs[g];
  }

  lemma MarkerStarts(m: Marker)
    ensures "#" <= Strip(MarkerLine(m)) && !("[" <= MarkerLine(m))
  {
    var s := MarkerLine(m);
    assert LStrip(s) == s;
    RStripIsPrefix(s);
  }

  // -------------------------------------------------------------------- the jobs

  /** The clone phase is over: `m` is the host as prepared, `r` the host with the clones and without the holds. */
  ghost predicate ClonedBetween(m: Host, r: Host, disks: seq<Disk>, snapshot: string, clones: seq<string>) {
    && Cloned(m, r.(holds := m.holds), disks, snapshot, clones) && r.snaps <= m.snaps
  }

  /** The holds, and the clones made under them. */
  method HoldAndClone(m: Host, disks: seq<Disk>, vmid: string, root: string, storage: string, snapshot: string,
                      works: nat -> bool, log: seq<Record>)
    returns (r: Host, failure: Option<Outcome>, created: seq<string>, volids: map<string, string>,
             ghost left: set<string>, ghost undoFailed: set<string>, ghost held: set<Snap>, log': seq<Record>)
    requires Consistent(m) && Functional(disks, Namer(vmid))
    requires forall d :: d in disks && Namer(vmid)(d).Some? ==> '/' !in Namer(vmid)(d).value
    ensures Consistent(r) && Named(disks, Namer(vmid), root, created) && undoFailed <= Elements(created)
    ensures r == m.(datasets := m.datasets + left, snaps := r.snaps, origins := r.origins, holds := m.holds + held)
    ensures r.snaps <= m.snaps && left !! m.datasets && held <= OriginSet(disks, snapshot)
    ensures failure.None? ==> |created| == |disks| && left == Elements(created)
    ensures failure.None? ==>
              ClonedBetween(m, r, disks, snapshot, created) && Mapping(volids, disks, Namer(vmid), storage)
    ensures failure.Some? ==>
              |created| < |disks| && FailedAt(failure.value, disks, vmid, |created|, created, left, undoFailed)
    ensures failure.Some? && failure.value.CloneFailed? && failure.value.why.NoOrigin? ==>
      Snap(disks[|created|].dataset, snapshot) !in held
    ensures Ran(m, log, works, log', r)
    ensures ClonesAreSaid(log, log', disks, vmid, root, snapshot, created, failure, held, undoFailed)
  {
    var middle;
    r, held, middle := HoldAll(m, disks, snapshot, works, log);
    ghost var m1 := r;
    r, failure, created, volids, left, undoFailed, log' :=
      CloneAll(r, disks, Namer(vmid), root, storage, snapshot, works, middle);
    RanJoins(m, log, works, middle, m1, log', r);
    JoinClones(log, middle, log', disks, vmid, root, snapshot, created, failure, held, undoFailed);
  }

  /** Clones, under holds. */
  method CloneUnderHolds(m: Host, disks: seq<Disk>, vmid: string, root: string, storage: string, snapshot: string,
                         works: nat -> bool, log: seq<Record>)
    returns (r: Host, failure: Option<Outcome>, created: seq<string>, volids: map<string, string>, holdsLeft: seq<Snap>,
             ghost left: set<string>, ghost undoFailed: set<string>, ghost held: set<Snap>, ghost silent: set<Snap>,
             log': seq<Record>)
    requires Consistent(m) && Functional(disks, Namer(vmid))
    requires forall d :: d in disks && Namer(vmid)(d).Some? ==> '/' !in Namer(vmid)(d).value
    ensures Consistent(r) && Named(disks, Namer(vmid), root, created) && undoFailed <= Elements(created)
    ensures r == m.(datasets := m.datasets + left, snaps := r.snaps, origins := r.origins, holds := r.holds)
    ensures r.snaps <= m.snaps && left !! m.datasets && held <= OriginSet(disks, snapshot)
    ensures r.holds <= m.holds + held && StillHeld(r, Origins(disks, snapshot), holdsLeft, silent)
    ensures failure.None? ==> |created| == |disks| && left == Elements(created)
    ensures failure.None? ==>
              ClonedBetween(m, r, disks, snapshot, created) && Mapping(volids, disks, Namer(vmid), storage)
    ensures failure.Some? ==>
              |created| < |disks| && FailedAt(failure.value, disks, vmid, |created|, created, left, undoFailed)
    ensures failure.Some? && failure.value.CloneFailed? && failure.value.why.NoOrigin? ==>
      Snap(disks[|created|].dataset, snapshot) !in held
    ensures Ran(m, log, works, log', r)
    ensures Issues(log, log', UnderHolds(disks, vmid, root, snapshot, created, failure))
    ensures HoldsAreSaid(log, log', m.holds, r.holds, Origins(disks, snapshot), held, silent)
    ensures failure.Some? && failure.value.CloneFailed? ==> UndoIsSaid(log, log', created, undoFailed)
  {
    var middle;
    r, failure, created, volids, left, undoFailed, held, middle :=
      HoldAndClone(m, disks, vmid, root, storage, snapshot, works, log);
    ghost var m1 := r;
    r, holdsLeft, silent, log' := ReleaseHolds(r, Origins(disks, snapshot), works, middle);
    RanJoins(m, log, works, middle, m1, log', r);
    JoinReleases(log, middle, log', disks, vmid, root, snapshot, created, failure, m.holds, r.holds, held, undoFailed,
                 silent);
  }

  /** Hold every origin, clone, undo when a clone fails, release every origin and ask for what is left. */
  function UnderHolds(disks: seq<Disk>, vmid: string, root: string, snapshot: string, created: seq<string>,
                      failure: Option<Outcome>): seq<Command>
    requires |created| <= |disks|
  {
    Holds(disks, snapshot) + CloneScript(disks, Namer(vmid), root, snapshot, created, failure)
    + (Releases(Origins(disks, snapshot)) + Asks(Origins(disks, snapshot)))
  }

  /** Held is what a hold command has worked for; a hold stays when its release has not worked;
      silent are the origins for whose holds no query was answered. */
  ghost predicate HoldsAreSaid(log: seq<Record>, log': seq<Record>, before: set<Snap>, after: set<Snap>,
                               origins: seq<Snap>, held: set<Snap>, silent: set<Snap>) {
    && (forall x :: x in held <==> Said(log, log', Hold(x)))
    && (forall x :: x in before || x in held ==> (x in after <==> !Said(log, log', Release(x))))
    && (forall x :: x in origins ==> (x in silent <==> !Said(log, log', AskHolds(x))))
  }

  /** The undo of a clone has failed when its destroy command has not worked. */
  ghost predicate UndoIsSaid(log: seq<Record>, log': seq<Record>, created: seq<string>, undoFailed: set<string>) {
    forall t :: t in created ==> (t in undoFailed <==> !Said(log, log', Destroy(t)))
  }

  predicate IsHold(c: Command) { c.Hold? }

  predicate IsCloning(c: Command) { c.CloneTo? || c.Destroy? }

  predicate IsReleasing(c: Command) { c.Release? || c.AskHolds? }

  lemma HoldsAreHolds(disks: seq<Disk>, snapshot: string)
    ensures forall c :: c in Holds(disks, snapshot) ==> IsHold(c)
  {
    MappedFrom(HoldOf(snapshot), disks);
  }

  lemma {:induction false} UndoDestroys(created: seq<string>)
    ensures forall c :: c in Undo(created) ==> c.Destroy?
  {
    if created != [] {
      UndoDestroys(created[..|created| - 1]);
    }
  }

  lemma ScriptClones(disks: seq<Disk>, nameOf: Disk -> Option<string>, root: string, snapshot: string,
                     created: seq<string>, failure: Option<Outcome>)
    requires |created| <= |disks|
    ensures forall c :: c in CloneScript(disks, nameOf, root, snapshot, created, failure) ==> IsCloning(c)
  {
    ClonesClone(Attempted(disks, created, failure), nameOf, root, snapshot);
    UndoDestroys(created);
  }

  /** What the holds and the clone loop say, and what came of the holds and the undo. */
  ghost predicate ClonesAreSaid(log: seq<Record>, log': seq<Record>, disks: seq<Disk>, vmid: string, root: string,
                                snapshot: string, created: seq<string>, failure: Option<Outcome>, held: set<Snap>,
                                undoFailed: set<string>) {
    && |created| <= |disks|
    && Issues(log, log', Holds(disks, snapshot) + CloneScript(disks, Namer(vmid), root, snapshot, created, failure))
    && (forall x :: x in held <==> Said(log, log', Hold(x)))
    && (failure.Some? && failure.value.CloneFailed? ==> UndoIsSaid(log, log', created, undoFailed))
  }

  lemma JoinClones(log: seq<Record>, middle: seq<Record>, log': seq<Record>, disks: seq<Disk>, vmid: string,
                   root: string, snapshot: string, created: seq<string>, failure: Option<Outcome>, held: set<Snap>,
                   undoFailed: set<string>)
    requires |created| <= |disks|
    requires Issues(log, middle, Holds(disks, snapshot)) && forall x :: x in held <==> Said(log, middle, Hold(x))
    requires Issues(middle, log', CloneScript(disks, Namer(vmid), root, snapshot, created, failure))
    requires failure.Some? && failure.value.CloneFailed? ==> UndoIsSaid(middle, log', created, undoFailed)
    ensures ClonesAreSaid(log, log', disks, vmid, root, snapshot, created, failure, held, undoFailed)
  {
    HoldsAreHolds(disks, snapshot);
    ScriptClones(disks, Namer(vmid), root, snapshot, created, failure);
    JoinTwo(log, middle, log', Holds(disks, snapshot),
            CloneScript(disks, Namer(vmid), root, snapshot, created, failure));
  }

  lemma JoinReleases(log: seq<Record>, middle: seq<Record>, log': seq<Record>, disks: seq<Disk>, vmid: string,
                     root: string, snapshot: string, created: seq<string>, failure: Option<Outcome>,
                     before: set<Snap>, after: set<Snap>, held: set<Snap>, undoFailed: set<string>, silent: set<Snap>)
    requires ClonesAreSaid(log, middle, disks, vmid, root, snapshot, created, failure, held, undoFailed)
    requires var origins := Origins(disks, snapshot);
             && Issues(middle, log', Releases(origins) + Asks(origins))
             && (forall x :: x in before + held ==> (x in after <==> !Said(middle, log', Release(x))))
             && (forall x :: x in origins ==> (x in silent <==> !Said(middle, log', AskHolds(x))))
    ensures Issues(log, log', UnderHolds(disks, vmid, root, snapshot, created, failure))
    ensures HoldsAreSaid(log, log', before, after, Origins(disks, snapshot), held, silent)
    ensures failure.Some? && failure.value.CloneFailed? ==> UndoIsSaid(log, log', created, undoFailed)
  {
    HoldsAreHolds(disks, snapshot);
    ScriptClones(disks, Namer(vmid), root, snapshot, created, failure);
    ReleasesAndAsks(Origins(disks, snapshot));
    JoinReleasing(log, middle, log', Holds(disks, snapshot),
                  CloneScript(disks, Namer(vmid), root, snapshot, created, failure),
                  Releases(Origins(disks, snapshot)) + Asks(Origins(disks, snapshot)));
  }

  lemma JoinReleasing(a: seq<Record>, b: seq<Record>, c: seq<Record>, x: seq<Command>, y: seq<Command>,
                      z: seq<Command>)
    requires Issues(a, b, x + y) && Issues(b, c, z)
    requires (forall k :: k in x ==> IsHold(k)) && (forall k :: k in y ==> IsCloning(k))
    requires forall k :: k in z ==> IsReleasing(k)
    ensures Issues(a, c, x + y + z)
    ensures forall k :: !IsReleasing(k) ==> (Said(a, c, k) <==> Said(a, b, k))
    ensures forall k :: IsReleasing(k) ==> (Said(a, c, k) <==> Said(b, c, k))
  {
    JoinTwo(a, b, c, x + y, z);
  }

  /** A volume without a PVE name leaves the clones made before it; a failed
      clone leaves those whose undo failed. */
  ghost predicate FailedAt(failure: Outcome, disks: seq<Disk>, vmid: string, at: nat, created: seq<string>,
                           left: set<string>, undoFailed: set<string>) {
    && at < |disks|
    && if CloneVolumeName(disks[at].dataset, vmid).None? then failure == BadVolume(at) && left == Elements(created)
       else failure.CloneFailed? && failure.at == at && left == undoFailed
  }

  lemma DisksAreDatasets(h: Host, entries: seq<Entry>)
    requires AllResolve(h, entries)
    ensures forall d :: d in DisksIn(h, entries) ==> IsDatasetName(d.dataset)
  {
    DisksInAll(h, entries);
  }

  lemma ClonesAreBacked(r: Host, disks: seq<Disk>, vmid: string, pool: string, storage: string, clones: seq<string>)
    requires Numeric(vmid) && IsStorageId(storage) && storage in r.storages && r.storages[storage] == Root(pool)
    requires forall d :: d in disks ==> IsDatasetName(d.dataset) && PoolOf(d.dataset) == pool
    requires Named(disks, Namer(vmid), Root(pool), clones) && |clones| == |disks| && Elements(clones) <= r.datasets
    ensures AllBacked(Lookup(r), disks, Namer(vmid), Root(pool), storage)
  {
    forall i | 0 <= i < |disks| ensures Backed(Lookup(r), Namer(vmid), Root(pool), storage, disks[i]) {
      assert NamedAt(Namer(vmid), Root(pool), disks[i], clones[i]);
      assert disks[i] in disks && clones[i] in Elements(clones);
      CloneNameShape(disks[i].dataset, vmid);
      CloneResolves(r, storage, disks[i].dataset, Namer(vmid)(disks[i]).value);
    }
  }

  ghost predicate Ready(h: Host, origin: Guest, pool: string) {
    && WellFormed(h) && AllResolve(h, Attached(h, origin))
    && forall d :: d in Disks(h, origin) ==> PoolOf(d.dataset) == pool
  }

  /** The storage and all clones are in place on `r`. */
  ghost predicate InPlace(r: Host, disks: seq<Disk>, vmid: string, pool: string, storage: string, clones: seq<string>,
                          volids: map<string, string>) {
    && Numeric(vmid) && IsStorageId(storage) && storage in r.storages && r.storages[storage] == Root(pool)
    && Named(disks, Namer(vmid), Root(pool), clones) && |clones| == |disks| && Elements(clones) <= r.datasets
    && Mapping(volids, disks, Namer(vmid), storage)
  }

  lemma VolidsReady(h: Host, origin: Guest, r: Host, volids: map<string, string>, vmid: string, pool: string,
                    storage: string, clones: seq<string>)
    requires Ready(h, origin, pool) && InPlace(r, Disks(h, origin), vmid, pool, storage, clones, volids)
    ensures Stand(Attached(h, origin), Disks(h, origin)) && IsVolidMap(volids)
    ensures Covered(Main(h, origin), origin.lxc, volids)
    ensures AllBacked(Lookup(r), Disks(h, origin), Namer(vmid), Root(pool), storage)
  {
    DisksAreDatasets(h, Attached(h, origin));
    DisksStand(h, Attached(h, origin));
    AttachedAreVolumes(h, origin);
    ClonesAreBacked(r, Disks(h, origin), vmid, pool, storage, clones);
    MappingIsVolidMap(Attached(h, origin), Disks(h, origin), Lookup(r), volids, Namer(vmid), Root(pool), storage);
  }

  lemma ConfigOfClones(h: Host, origin: Guest, r: Host, g: Guest, volids: map<string, string>, vmid: string,
                       pool: string, storage: string, clones: seq<string>, m: Marker, smbios: string, genid: string)
    requires Ready(h, origin, pool) && origin in h.configs && g.lxc == origin.lxc && IsPlainMarker(m)
    requires InPlace(r, Disks(h, origin), vmid, pool, storage, clones, volids)
    requires NoSpaces(smbios) && NoSpaces(genid) && genid != []
    requires g in r.configs
    requires r.configs[g] == Rebuilt(h.configs[origin], origin.lxc, volids, MarkerLine(m), smbios, genid)
    ensures Proven(r, g) && ClonesOf(r, g, Disks(h, origin), clones)
    ensures NoIndentedHeaders(Main(h, origin)) ==> |Disks(r, g)| == |Disks(h, origin)|
  {
    var entries, disks := Attached(h, origin), Disks(h, origin);
    VolidsReady(h, origin, r, volids, vmid, pool, storage, clones);
    MarkerStarts(m);
    RebuiltKeepsDisks(h.configs[origin], origin.lxc, volids, MarkerLine(m), smbios, genid);
    CloneEntriesRead(entries, disks, Attached(r, g), Lookup(r), volids, Namer(vmid), Root(pool), storage, clones);
    ReadDisks(r, g, disks, clones);
    ProvenFromConfig(r, g, h.configs[origin], volids, m, smbios, genid);
  }

  lemma ProvenFromConfig(r: Host, g: Guest, lines: seq<string>, volids: map<string, string>, m: Marker, smbios: string,
                         genid: string)
    requires g in r.configs && r.configs[g] == Rebuilt(lines, g.lxc, volids, MarkerLine(m), smbios, genid)
    requires IsPlainMarker(m)
    requires AllResolve(r, Attached(r, g)) && forall d :: d in Disks(r, g) ==> UnderCloneRoot(d.dataset)
    ensures Proven(r, g)
  {
    var rest := RebuiltLines(MainSection(lines), g.lxc, volids) + Closing(g.lxc, smbios, genid);
    assert r.configs[g] == [MarkerLine(m)] + rest;
    RecoveryIsProven(r, g, m, rest);
  }

  /** The recovery root and the storage are there, and nothing else has changed. */
  ghost predicate Prepared(h: Host, m: Host, pool: string, storage: string) {
    && WellFormed(m) && m == h.(datasets := m.datasets, storages := m.storages, snaps := m.snaps) && m.snaps <= h.snaps
    && m.datasets == h.datasets + {Root(pool)} && storage in m.storages && m.storages[storage] == Root(pool)
    && forall s :: s in h.storages ==> s in m.storages && m.storages[s] == h.storages[s]
  }

  /** What is left after a failed `create_job`: the recovery root and storage, perhaps, and `left`. */
  ghost predicate Abandoned(h: Host, r: Host, pool: string, left: set<string>) {
    && Consistent(r) && r.running == h.running && r.configs == h.configs && r.others == h.others
    && (forall s :: s in h.storages ==> s in r.storages && r.storages[s] == h.storages[s])
    && left !! h.datasets && left <= r.datasets
    && (r.datasets == h.datasets + left || r.datasets == h.datasets + {Root(pool)} + left)
  }

  /** The disks are read, each is asked for the snapshot, and the host whether the identifier is taken. */
  function CheckScript(disks: seq<Disk>, origin: Guest, snapshot: string, vmid: string): seq<Command> {
    [ReadGuest(origin)] + Checks(disks, snapshot) + [AskIdentifier(vmid)]
  }

  /** All that is demanded is there, as far as the queries are answered. */
  ghost predicate Accepted(h: Host, log: seq<Record>, log': seq<Record>, origin: Guest, snapshot: string,
                           vmid: string) {
    && Acceptable(h, origin, snapshot, vmid)
    && Issues(log, log', CheckScript(Disks(h, origin), origin, snapshot, vmid))
    && Said(log, log', ReadGuest(origin)) && Listed(log, log', Disks(h, origin), snapshot)
    && (IsFree(h, vmid) || !Said(log, log', AskIdentifier(vmid)))
  }

  /** The first of the queries have been made, and something demanded is missing or was not heard. */
  ghost predicate NotAccepted(h: Host, log: seq<Record>, log': seq<Record>, origin: Guest, snapshot: string,
                              vmid: string) {
    && log <= log' && Commands(log'[|log|..]) <= CheckScript(Disks(h, origin), origin, snapshot, vmid)
    && (|| !Acceptable(h, origin, snapshot, vmid) || Unsaid(log, log', ReadGuest(origin))
        || Unlisted(log, log', Disks(h, origin), snapshot)
        || (!IsFree(h, vmid) && Said(log, log', AskIdentifier(vmid))))
  }

  /** The checks, the recovery root and the storage. */
  method Begin(h: Host, origin: Guest, snapshot: string, vmid: string, works: nat -> bool)
    returns (r: Host, failure: Option<Outcome>, disks: seq<Disk>, pool: string, storage: string, checked: seq<Record>,
             ghost made: bool, ghost added: bool, log: seq<Record>)
    requires WellFormed(h)
    ensures r.snaps <= h.snaps && Ran(h, [], works, log, r)
    ensures failure.Some? ==> failure.value.Refused? || failure.value.RootFailed? || failure.value.StorageFailed?
    ensures failure == Some(Refused) ==> NotAccepted(h, [], log, origin, snapshot, vmid)
    ensures failure == Some(Refused) ==> r == h.(snaps := r.snaps) && Consistent(r)
    ensures failure != Some(Refused) ==> Accepted(h, [], checked, origin, snapshot, vmid)
    ensures failure != Some(Refused) ==> disks == Disks(h, origin) && pool == PoolOf(disks[0].dataset)
    ensures failure != Some(Refused) ==> PreparationIsSaid(h, checked, log, pool, failure, made, added)
    ensures failure.Some? && failure != Some(Refused) ==> Abandoned(h, r, pool, {}) && r.holds == h.holds
    ensures failure.None? ==> Prepared(h, r, pool, storage)
  {
    var ok: bool;
    failure, pool, storage, made, added := Some(Refused), "", "", false, false;
    r, ok, disks, checked := Check(h, origin, snapshot, vmid, works);
    log := checked;
    if !ok {
      return;
    }
    pool := PoolOf(disks[0].dataset);
    ghost var m := r;
    r, failure, storage, made, added, log := Prepare(r, pool, works, checked);
    RanJoins(h, [], works, checked, m, log, r);
    PreparedFrom(h, m, r, pool, storage);
  }

  /** The pruner makes no difference to what is prepared or left behind. */
  lemma PreparedFrom(h: Host, m: Host, r: Host, pool: string, storage: string)
    requires m == h.(snaps := m.snaps) && m.snaps <= h.snaps
    ensures Prepared(m, r, pool, storage) ==> Prepared(h, r, pool, storage)
    ensures Abandoned(m, r, pool, {}) ==> Abandoned(h, r, pool, {})
  {
  }

  /** What is demanded of the guest and its snapshots. */
  ghost predicate Found(h: Host, log: seq<Record>, log': seq<Record>, origin: Guest, snapshot: string) {
    && IsLabel(snapshot) && Numeric(origin.vmid) && Clonable(h, origin)
    && Issues(log, log', [ReadGuest(origin)] + Checks(Disks(h, origin), snapshot))
    && Said(log, log', ReadGuest(origin)) && Listed(log, log', Disks(h, origin), snapshot)
  }

  ghost predicate NotFound(h: Host, log: seq<Record>, log': seq<Record>, origin: Guest, snapshot: string) {
    && log <= log' && Commands(log'[|log|..]) <= [ReadGuest(origin)] + Checks(Disks(h, origin), snapshot)
    && (|| !IsLabel(snapshot) || !Numeric(origin.vmid) || !Clonable(h, origin) || Unsaid(log, log', ReadGuest(origin))
        || Unlisted(log, log', Disks(h, origin), snapshot))
  }

  /** The guest and its snapshots. */
  method CheckGuest(h: Host, origin: Guest, snapshot: string, works: nat -> bool)
    returns (r: Host, ok: bool, disks: seq<Disk>, log: seq<Record>)
    requires WellFormed(h)
    ensures r == h.(snaps := r.snaps) && r.snaps <= h.snaps && Consistent(r) && Ran(h, [], works, log, r)
    ensures if ok then Found(h, [], log, origin, snapshot) && disks == Disks(h, origin)
            else NotFound(h, [], log, origin, snapshot)
  {
    r, ok, disks, log := h, false, [], [];
    if !IsLabel(snapshot) || !Numeric(origin.vmid) {
      return;
    }
    var heard := works(0);
    var read := [Record(ReadGuest(origin), heard)];
    log := read;
    Asked(h, [], works, ReadGuest(origin));
    if !heard || !Clonable(h, origin) {
      return;
    }
    var entries := ParseDisks(h.configs[origin], origin.lxc);
    disks := DisksIn(h, entries);
    ghost var asked;
    r, ok, asked, log := CheckSnapshots(h, disks, snapshot, works, read);
    RanJoins(h, [], works, read, h, log, r);
    JoinChecks(h, read, log, origin, disks, snapshot, asked, ok);
  }

  lemma JoinChecks(h: Host, read: seq<Record>, log: seq<Record>, origin: Guest, disks: seq<Disk>, snapshot: string,
                   asked: nat, ok: bool)
    requires read == [Record(ReadGuest(origin), true)] && asked <= |disks|
    requires Issues(read, log, Checks(disks[..asked], snapshot))
    requires if ok then asked == |disks| && Listed(read, log, disks, snapshot) else Unlisted(read, log, disks, snapshot)
    ensures Issues([], log, [ReadGuest(origin)] + Checks(disks[..asked], snapshot))
    ensures [ReadGuest(origin)] + Checks(disks[..asked], snapshot) <= [ReadGuest(origin)] + Checks(disks, snapshot)
    ensures Said([], log, ReadGuest(origin))
    ensures if ok then disks[..asked] == disks && Listed([], log, disks, snapshot)
            else Unlisted([], log, disks, snapshot)
  {
    IssueNothing([]);
    IssueOne([], [], Record(ReadGuest(origin), true), []);
    Joins([], read, log, [ReadGuest(origin)], Checks(disks[..asked], snapshot));
    MapSeqConcat(CheckOf(snapshot), disks[..asked], disks[asked..]);
    assert disks[..asked] + disks[asked..] == disks && log == read + log[|read|..];
  }

  /** All that is demanded before anything is changed. */
  method Check(h: Host, origin: Guest, snapshot: string, vmid: string, works: nat -> bool)
    returns (r: Host, ok: bool, disks: seq<Disk>, log: seq<Record>)
    requires WellFormed(h)
    ensures r == h.(snaps := r.snaps) && r.snaps <= h.snaps && Consistent(r) && Ran(h, [], works, log, r)
    ensures if ok then Accepted(h, [], log, origin, snapshot, vmid) && disks == Disks(h, origin)
            else NotAccepted(h, [], log, origin, snapshot, vmid)
  {
    r, ok, disks, log := CheckGuest(h, origin, snapshot, works);
    if ok && Numeric(vmid) && vmid != origin.vmid {
      var heard := works(|log|);
      IdentifierAsked(h, log, works, r, origin, snapshot, vmid);
      log := log + [Record(AskIdentifier(vmid), heard)];
      ok := !heard || IsFree(h, vmid);
    } else {
      ok := false;
    }
  }

  lemma IdentifierAsked(h: Host, log: seq<Record>, works: nat -> bool, r: Host, origin: Guest, snapshot: string,
                        vmid: string)
    requires Found(h, [], log, origin, snapshot) && Ran(h, [], works, log, r)
    requires Numeric(vmid) && vmid != origin.vmid
    ensures var log' := log + [Record(AskIdentifier(vmid), works(|log|))];
            && Ran(h, [], works, log', r)
            && if !works(|log|) || IsFree(h, vmid) then Accepted(h, [], log', origin, snapshot, vmid)
               else NotAccepted(h, [], log', origin, snapshot, vmid)
  {
    RanQuery(h, [], works, log, r, AskIdentifier(vmid));
    LastAsked(log, origin, Disks(h, origin), snapshot, vmid, works(|log|));
  }

  lemma LastAsked(log: seq<Record>, origin: Guest, disks: seq<Disk>, snapshot: string, vmid: string, heard: bool)
    requires Issues([], log, [ReadGuest(origin)] + Checks(disks, snapshot))
    requires Said([], log, ReadGuest(origin)) && Listed([], log, disks, snapshot)
    ensures var log' := log + [Record(AskIdentifier(vmid), heard)];
            && Issues([], log', CheckScript(disks, origin, snapshot, vmid))
            && Said([], log', ReadGuest(origin)) && Listed([], log', disks, snapshot)
            && (Said([], log', AskIdentifier(vmid)) <==> heard)
  {
    var asked := [ReadGuest(origin)] + Checks(disks, snapshot);
    IssueOne([], log, Record(AskIdentifier(vmid), heard), asked);
    OnlyThese([], log, asked);
    MappedFrom(CheckOf(snapshot), disks);
  }

  /** The recovery root and one new clone per disk, all of one snapshot label, are there besides. */
  ghost predicate Placed(h: Host, r: Host, disks: seq<Disk>, root: string, snapshot: string, clones: seq<string>) {
    && |clones| <= |disks| && (forall i, j :: 0 <= i < j < |clones| ==> clones[i] != clones[j])
    && (forall t :: t in clones ==> t !in h.datasets && t != root)
    && r.datasets == h.datasets + {root} + Elements(clones)
    && r.origins.Keys == h.origins.Keys + Elements(clones)
    && (forall d :: d in h.origins && d !in clones ==> r.origins[d] == h.origins[d])
    && (forall i :: 0 <= i < |clones| ==>
          clones[i] in r.origins && r.origins[clones[i]] == Snap(disks[i].dataset, snapshot))
  }

  /** What a successful `create_job` has done: one clone per disk, all of one
      snapshot label, and a stopped guest made of them, which owns nothing else
      when its identifier was free. */
  ghost predicate Recovered(h: Host, r: Host, origin: Guest, pool: string, snapshot: string, g: Guest,
                            clones: seq<string>) {
    var disks := Disks(h, origin);
    && Consistent(r) && r.running == h.running && g.lxc == origin.lxc
    && |clones| == |disks| && Placed(h, r, disks, Root(pool), snapshot, clones)
    && g in r.configs && r.configs == h.configs[g := r.configs[g]]
    && g in r.others && r.others == h.others[g := r.others[g]] && (IsFree(h, g.vmid) ==> r.others[g] == {})
    && ClonesOf(r, g, disks, clones)
    && (NoIndentedHeaders(Main(h, origin)) ==> |Disks(r, g)| == |disks|)
  }

  lemma WrittenIsRecovered(h: Host, m: Host, c: Host, r: Host, origin: Guest, pool: string, storage: string,
                           snapshot: string, g: Guest, clones: seq<string>)
    requires Prepared(h, m, pool, storage) && ClonedBetween(m, c, Disks(h, origin), snapshot, clones)
    requires Consistent(r) && Pruned(c, r.(configs := c.configs, others := c.others)) && g.lxc == origin.lxc
    requires g in r.configs && r.configs == c.configs[g := r.configs[g]]
    requires g in r.others && r.others == c.others[g := r.others[g]] && (IsFree(c, g.vmid) ==> r.others[g] == {})
    requires ClonesOf(r, g, Disks(h, origin), clones) && |clones| == |Disks(h, origin)|
    requires NoIndentedHeaders(Main(h, origin)) ==> |Disks(r, g)| == |Disks(h, origin)|
    ensures Recovered(h, r, origin, pool, snapshot, g, clones)
  {
    ClonedIsPlaced(h, m, c.(holds := m.holds), Disks(h, origin), Root(pool), snapshot, clones);
    PlacedStays(h, c.(holds := m.holds), r, Disks(h, origin), Root(pool), snapshot, clones);
    assert c.configs == h.configs && c.others == h.others && c.running == h.running;
  }

  lemma ClonedIsPlaced(h: Host, m: Host, c: Host, disks: seq<Disk>, root: string, snapshot: string, clones: seq<string>)
    requires m.datasets == h.datasets + {root} && m.origins == h.origins && Cloned(m, c, disks, snapshot, clones)
    ensures Placed(h, c, disks, root, snapshot, clones)
  {
    forall t | t in clones ensures t !in h.datasets && t != root {
      assert t !in m.datasets;
    }
  }

  lemma PlacedStays(h: Host, c: Host, r: Host, disks: seq<Disk>, root: string, snapshot: string, clones: seq<string>)
    requires Placed(h, c, disks, root, snapshot, clones) && r.datasets == c.datasets && r.origins == c.origins
    ensures Placed(h, r, disks, root, snapshot, clones)
  {
  }

  /** Writes the configuration of the recovery guest, or undoes the clones. */
  method Finish(ghost h: Host, ghost m: Host, c: Host, origin: Guest, lines: seq<string>, g: Guest, ghost vmid: string,
                ghost pool: string, ghost storage: string, marker: Marker, clones: seq<string>,
                volids: map<string, string>, smbios: string, genid: string, works: nat -> bool, log: seq<Record>)
    returns (r: Host, outcome: Outcome, ghost undoFailed: set<string>, ghost tried: bool, log': seq<Record>)
    requires Ready(h, origin, pool) && origin in h.configs && g.lxc == origin.lxc && IsPlainMarker(marker)
    requires lines == h.configs[origin] && Prepared(h, m, pool, storage) && Consistent(c)
    requires InPlace(c, Disks(h, origin), vmid, pool, storage, clones, volids)
    requires ClonedBetween(m, c, Disks(h, origin), marker.snapshot, clones)
    requires NoSpaces(smbios) && NoSpaces(genid) && genid != []
    ensures r.snaps <= c.snaps && r.holds == c.holds && (outcome == Created(g) || outcome.ConfigFailed?)
    ensures outcome.Created? ==> Proven(r, g) && Recovered(h, r, origin, pool, marker.snapshot, g, clones)
    ensures outcome.ConfigFailed? ==> Abandoned(h, r, pool, undoFailed) && undoFailed <= Elements(clones)
    ensures Ran(c, log, works, log', r) && Issues(log, log', FinishScript(clones, outcome, g, tried))
    ensures WriteIsSaid(log, log', h, outcome, g, tried)
    ensures outcome.ConfigFailed? ==> UndoIsSaid(log, log', clones, undoFailed)
  {
    var text := BuildRecoveryConfig(lines, origin.lxc, volids, MarkerLine(marker), smbios, genid);
    var ok: bool;
    r, ok, undoFailed, tried, log' := WriteOrUndo(c, g, text, clones, works, log);
    if ok {
      outcome := Created(g);
      ConfigOfClones(h, origin, r, g, volids, vmid, pool, storage, clones, marker, smbios, genid);
      WrittenIsRecovered(h, m, c, r, origin, pool, storage, marker.snapshot, g, clones);
    } else {
      outcome := ConfigFailed;
    }
  }

  /** The configuration is written exactly when none is heard of, and the guest is created when that works. */
  ghost predicate WriteIsSaid(log: seq<Record>, log': seq<Record>, h: Host, outcome: Outcome, g: Guest, tried: bool) {
    && (tried <==> g !in h.configs || !Said(log, log', AskConfig(g)))
    && (outcome.Created? <==> Said(log, log', Write(g)))
  }

  method WriteOrUndo(c: Host, g: Guest, text: seq<string>, clones: seq<string>, works: nat -> bool, log: seq<Record>)
    returns (r: Host, ok: bool, ghost undoFailed: set<string>, tried: bool, log': seq<Record>)
    requires Consistent(c) && forall i, j :: 0 <= i < j < |clones| ==> clones[i] != clones[j]
    ensures Consistent(r) && Ran(c, log, works, log', r)
    ensures ok ==> Pruned(c, r.(configs := c.configs, others := c.others)) && r.configs == c.configs[g := text]
    ensures ok ==> g in r.others && r.others == c.others[g := r.others[g]]
    ensures ok && IsFree(c, g.vmid) ==> r.others[g] == {}
    ensures !ok ==> HasLost(c, r, Elements(clones) - undoFailed) && undoFailed <= Elements(clones)
    ensures Issues(log, log', WriteScript(g, tried) + if ok then [] else Undo(clones))
    ensures tried <==> g !in c.configs || !Said(log, log', AskConfig(g))
    ensures ok <==> Said(log, log', Write(g))
    ensures !ok ==> UndoIsSaid(log, log', clones, undoFailed)
  {
    undoFailed := {};
    r, ok, tried, log' := WriteConfig(c, g, text, works, log);
    if !ok {
      ghost var m, middle := r, log';
      r, undoFailed, log' := DestroyQuietly(r, clones, works, log');
      RanJoins(c, log, works, middle, m, log', r);
      UndoDestroys(clones);
      JoinTwo(log, middle, log', WriteScript(g, tried), Undo(clones));
    }
  }

  lemma NumericIsPlain(s: string)
    requires Numeric(s)
    ensures IsPlain(s)
  {
  }

  lemma LabelIsPlain(s: string)
    requires IsLabel(s)
    ensures IsPlain(s)
  {
  }

  lemma AcceptableIsReady(h: Host, origin: Guest, snapshot: string, vmid: string)
    requires WellFormed(h) && Acceptable(h, origin, snapshot, vmid)
    ensures Ready(h, origin, PoolOf(Disks(h, origin)[0].dataset)) && origin in h.configs
    ensures Numeric(vmid) && Numeric(origin.vmid) && IsLabel(snapshot) && AllResolve(h, Attached(h, origin))
  {
  }

  lemma NamesAreReady(h: Host, origin: Guest, vmid: string)
    requires Numeric(vmid) && AllResolve(h, Attached(h, origin))
    ensures Functional(Disks(h, origin), Namer(vmid))
    ensures forall d :: d in Disks(h, origin) && Namer(vmid)(d).Some? ==> '/' !in Namer(vmid)(d).value
  {
    NamesAreSafe(h, Attached(h, origin), vmid);
  }

  /** Clones and configuration, once the recovery root and the storage are there. */
  method Build(ghost h: Host, m: Host, lines: seq<string>, disks: seq<Disk>, origin: Guest, vmid: string, pool: string,
               storage: string, marker: Marker, smbios: string, genid: string, works: nat -> bool, log: seq<Record>)
    returns (r: Host, outcome: Outcome, holdsLeft: seq<Snap>, ghost clones: seq<string>, ghost left: set<string>,
             ghost undoFailed: set<string>, ghost held: set<Snap>, ghost tried: bool, ghost holds: set<Snap>,
             log': seq<Record>)
    requires Ready(h, origin, pool) && origin in h.configs && lines == h.configs[origin] && IsPlainMarker(marker)
    requires Numeric(vmid)
    requires Prepared(h, m, pool, storage) && disks == Disks(h, origin) && Functional(disks, Namer(vmid))
    requires forall d :: d in disks && Namer(vmid)(d).Some? ==> '/' !in Namer(vmid)(d).value
    requires NoSpaces(smbios) && NoSpaces(genid) && genid != []
    ensures r.snaps <= m.snaps && r.holds <= m.holds + held && held <= OriginSet(disks, marker.snapshot)
    ensures StillHeld(r, Origins(disks, marker.snapshot), holdsLeft, holds)
    ensures outcome == Created(Guest(origin.lxc, vmid)) ||
            outcome.ConfigFailed? || outcome.CloneFailed? || outcome.BadVolume?
    ensures outcome.Created? ==> Proven(r, outcome.guest)
    ensures outcome.Created? ==> Recovered(h, r, origin, pool, marker.snapshot, outcome.guest, clones)
    ensures Ran(m, log, works, log', r)
    ensures outcome.Created? ==> Named(disks, Namer(vmid), Root(pool), clones)
    ensures !outcome.Created? ==> Abandoned(h, r, pool, left)
    ensures outcome.ConfigFailed? ==> left == undoFailed
    ensures outcome.BadVolume? || outcome.CloneFailed? ==>
      |clones| == outcome.at && FailedAt(outcome, disks, vmid, outcome.at, clones, left, undoFailed)
    ensures outcome.CloneFailed? && outcome.why.NoOrigin? ==> Snap(disks[outcome.at].dataset, marker.snapshot) !in held
    ensures CreationIsSaid(log, log', h, m.holds, r.holds, disks, vmid, Root(pool), marker.snapshot, clones, outcome,
                           Guest(origin.lxc, vmid), held, holds, undoFailed, tried)
  {
    var failure, made, volids, middle;
    tried := false;
    r, failure, made, volids, holdsLeft, left, undoFailed, held, holds, middle :=
      CloneUnderHolds(m, disks, vmid, Root(pool), storage, marker.snapshot, works, log);
    log' := middle;
    clones := made;
    if failure.Some? {
      outcome := failure.value;
      return;
    }
    ghost var c := r;
    r, outcome, undoFailed, tried, log' := Finish(h, m, r, origin, lines, Guest(origin.lxc, vmid), vmid, pool, storage,
                                                  marker, made, volids, smbios, genid, works, middle);
    left := undoFailed;
    RanJoins(m, log, works, middle, c, log', r);
    JoinFinish(log, middle, log', h, m.holds, r.holds, disks, vmid, Root(pool), marker.snapshot, made, outcome,
               Guest(origin.lxc, vmid), held, holds, undoFailed, tried);
  }

  function FailureOf(outcome: Outcome): Option<Outcome> { if outcome.CloneFailed? then Some(outcome) else None }

  /** The configuration is written, unless one is heard of; when that fails, the clones are undone. */
  function FinishScript(clones: seq<string>, outcome: Outcome, g: Guest, tried: bool): seq<Command> {
    if outcome.Created? then WriteScript(g, tried)
    else if outcome.ConfigFailed? then WriteScript(g, tried) + Undo(clones)
    else []
  }

  /** All that a creation says once the recovery root and the storage are there. */
  function CreationScript(disks: seq<Disk>, vmid: string, root: string, snapshot: string, clones: seq<string>,
                          outcome: Outcome, g: Guest, tried: bool): seq<Command>
    requires |clones| <= |disks|
  {
    UnderHolds(disks, vmid, root, snapshot, clones, FailureOf(outcome)) + FinishScript(clones, outcome, g, tried)
  }

  /** What a creation says after the preparations, and what came of the holds, the releases, the undo and the
      configuration. */
  ghost predicate CreationIsSaid(log: seq<Record>, log': seq<Record>, h: Host, before: set<Snap>, after: set<Snap>,
                                 disks: seq<Disk>, vmid: string, root: string, snapshot: string, clones: seq<string>,
                                 outcome: Outcome, g: Guest, held: set<Snap>, silent: set<Snap>,
                                 undoFailed: set<string>, tried: bool) {
    && |clones| <= |disks|
    && Issues(log, log', CreationScript(disks, vmid, root, snapshot, clones, outcome, g, tried))
    && (outcome.Created? || outcome.ConfigFailed? ==> WriteIsSaid(log, log', h, outcome, g, tried))
    && HoldsAreSaid(log, log', before, after, Origins(disks, snapshot), held, silent)
    && (outcome.CloneFailed? || outcome.ConfigFailed? ==> UndoIsSaid(log, log', clones, undoFailed))
  }

  lemma JoinFinish(log: seq<Record>, middle: seq<Record>, log': seq<Record>, h: Host, before: set<Snap>,
                   after: set<Snap>, disks: seq<Disk>, vmid: string, root: string, snapshot: string,
                   clones: seq<string>, outcome: Outcome, g: Guest, held: set<Snap>, silent: set<Snap>,
                   undoFailed: set<string>, tried: bool)
    requires |clones| == |disks| && (outcome == Created(g) || outcome == ConfigFailed)
    requires Issues(log, middle, UnderHolds(disks, vmid, root, snapshot, clones, None))
    requires HoldsAreSaid(log, middle, before, after, Origins(disks, snapshot), held, silent)
    requires Issues(middle, log', FinishScript(clones, outcome, g, tried))
    requires WriteIsSaid(middle, log', h, outcome, g, tried)
    requires outcome.ConfigFailed? ==> UndoIsSaid(middle, log', clones, undoFailed)
    ensures CreationIsSaid(log, log', h, before, after, disks, vmid, root, snapshot, clones, outcome, g, held, silent,
                           undoFailed, tried)
  {
    var x, y := UnderHolds(disks, vmid, root, snapshot, clones, None), FinishScript(clones, outcome, g, tried);
    NothingUndone(disks, vmid, root, snapshot, clones);
    FinishKinds(clones, outcome, g, tried);
    JoinKinds(log, middle, log', x, y);
    HoldsStaySaid(log, middle, log', before, after, Origins(disks, snapshot), held, silent);
    UndoStaysSaid(log, middle, log', clones, undoFailed);
  }

  lemma FinishKinds(clones: seq<string>, outcome: Outcome, g: Guest, tried: bool)
    ensures forall c :: c in FinishScript(clones, outcome, g, tried) ==> !IsHold(c) && !IsReleasing(c)
  {
    UndoDestroys(clones);
  }

  predicate IsFinishing(c: Command) { c.Destroy? || c.AskConfig? || c.Write? }

  lemma JoinKinds(a: seq<Record>, b: seq<Record>, c: seq<Record>, x: seq<Command>, y: seq<Command>)
    requires Issues(a, b, x) && Issues(b, c, y)
    requires (forall k :: k in x ==> !IsFinishing(k)) && forall k :: k in y ==> !IsHold(k) && !IsReleasing(k)
    ensures Issues(a, c, x + y) && forall t :: !Said(a, b, Destroy(t))
    ensures forall k :: IsHold(k) || IsReleasing(k) ==> (Said(a, c, k) <==> Said(a, b, k))
    ensures forall k :: IsFinishing(k) ==> (Said(a, c, k) <==> Said(b, c, k))
  {
    JoinTwo(a, b, c, x, y);
    OnlyThese(a, b, x);
  }

  lemma HoldsStaySaid(log: seq<Record>, middle: seq<Record>, log': seq<Record>, before: set<Snap>, after: set<Snap>,
                      origins: seq<Snap>, held: set<Snap>, silent: set<Snap>)
    requires HoldsAreSaid(log, middle, before, after, origins, held, silent)
    requires forall k :: IsHold(k) || IsReleasing(k) ==> (Said(log, log', k) <==> Said(log, middle, k))
    ensures HoldsAreSaid(log, log', before, after, origins, held, silent)
  {
  }

  lemma UndoStaysSaid(log: seq<Record>, middle: seq<Record>, log': seq<Record>, clones: seq<string>,
                      undoFailed: set<string>)
    requires log <= middle <= log' && forall t :: !Said(log, middle, Destroy(t))
    ensures UndoIsSaid(middle, log', clones, undoFailed) ==> UndoIsSaid(log, log', clones, undoFailed)
  {
    assert log'[|log|..] == middle[|log|..] + log'[|middle|..];
  }

  lemma ClonesClone(disks: seq<Disk>, nameOf: Disk -> Option<string>, root: string, snapshot: string)
    ensures forall c :: c in Clones(disks, nameOf, root, snapshot) ==> c.CloneTo?
  {
    var clone := CloneCommand(nameOf, root, snapshot);
    forall c: Command | c in MapSeq(clone, disks) ensures c.CloneTo? {
      var i :| 0 <= i < |disks| && MapSeq(clone, disks)[i] == c;
      assert c == clone(disks[i]);
    }
  }

  /** Without a failing clone nothing is undone. */
  lemma NothingUndone(disks: seq<Disk>, vmid: string, root: string, snapshot: string, clones: seq<string>)
    requires |clones| <= |disks|
    ensures forall c :: c in UnderHolds(disks, vmid, root, snapshot, clones, None) ==> !IsFinishing(c)
  {
    HoldsAreHolds(disks, snapshot);
    ReleasesAndAsks(Origins(disks, snapshot));
    ClonesClone(Attempted(disks, clones, None), Namer(vmid), root, snapshot);
    NoneIn(Holds(disks, snapshot), CloneScript(disks, Namer(vmid), root, snapshot, clones, None),
           Releases(Origins(disks, snapshot)) + Asks(Origins(disks, snapshot)));
  }

  lemma NoneIn(x: seq<Command>, y: seq<Command>, z: seq<Command>)
    requires (forall c :: c in x ==> IsHold(c)) && (forall c :: c in y ==> c.CloneTo?)
    requires forall c :: c in z ==> IsReleasing(c)
    ensures forall c :: c in x + y + z ==> !IsFinishing(c)
  {
  }

  /** `create_job`. A given or suggested identifier arrives in `vmid`; `pool` is the pool of the disks; the
      transcript is `checked` after the checks and `prepared` once the recovery root and the storage are there. */
  method CreateJob(h: Host, origin: Guest, snapshot: string, vmid: string, created: string, smbios: string,
                   genid: string, works: nat -> bool)
    returns (r: Host, outcome: Outcome, holdsLeft: seq<Snap>, pool: string, ghost clones: seq<string>,
             ghost left: set<string>, ghost undoFailed: set<string>, ghost held: set<Snap>, ghost silent: set<Snap>,
             ghost made: bool, ghost added: bool, ghost tried: bool, checked: seq<Record>, prepared: seq<Record>,
             log: seq<Record>)
    requires WellFormed(h) && IsPlain(created) && NoSpaces(smbios) && NoSpaces(genid) && genid != []
    ensures Ran(h, [], works, log, r)
    ensures r.snaps <= h.snaps && r.holds <= h.holds + held && held <= OriginSet(Disks(h, origin), snapshot)
    ensures outcome.Refused? ==> NotAccepted(h, [], log, origin, snapshot, vmid)
    ensures outcome.Refused? ==> r == h.(snaps := r.snaps) && Consistent(r)
    ensures !outcome.Refused? ==> Accepted(h, [], checked, origin, snapshot, vmid)
    ensures !outcome.Refused? ==> pool == PoolOf(Disks(h, origin)[0].dataset)
    ensures outcome.Created? ==> outcome.guest == Guest(origin.lxc, vmid) && Proven(r, outcome.guest)
    ensures outcome.Created? ==> Recovered(h, r, origin, pool, snapshot, outcome.guest, clones)
    ensures outcome.Created? ==> SamePools(Disks(h, origin), clones)
    ensures !outcome.Created? && !outcome.Refused? ==> Abandoned(h, r, pool, left)
    ensures outcome.RootFailed? || outcome.StorageFailed? ==> left == {} && log == prepared
    ensures outcome.ConfigFailed? ==> left == undoFailed
    ensures outcome.BadVolume? || outcome.CloneFailed? ==>
      |clones| == outcome.at && FailedAt(outcome, Disks(h, origin), vmid, outcome.at, clones, left, undoFailed)
    ensures outcome.CloneFailed? && outcome.why.NoOrigin? ==>
              !Said(prepared, log, Hold(Snap(Disks(h, origin)[outcome.at].dataset, snapshot)))
    ensures outcome.RootFailed? || outcome.StorageFailed? ==>
              PreparationIsSaid(h, checked, prepared, pool, Some(outcome), made, added)
    ensures outcome.ConfigFailed? || outcome.CloneFailed? || outcome.BadVolume? || outcome.Created? ==>
      && PreparationIsSaid(h, checked, prepared, pool, None, made, added)
      && StillHeld(r, Origins(Disks(h, origin), snapshot), holdsLeft, silent)
      && CreationIsSaid(prepared, log, h, h.holds, r.holds, Disks(h, origin), vmid, Root(pool), snapshot, clones,
                        outcome, Guest(origin.lxc, vmid), held, silent, undoFailed, tried)
  {
    holdsLeft, clones, left, undoFailed, held, silent, tried := [], [], {}, {}, {}, {}, false;
    var failure, disks, storage;
    r, failure, disks, pool, storage, checked, made, added, prepared := Begin(h, origin, snapshot, vmid, works);
    log := prepared;
    if failure.Some? {
      outcome := failure.value;
      return;
    }
    AcceptableIsReady(h, origin, snapshot, vmid);
    NumericIsPlain(origin.vmid);
    LabelIsPlain(snapshot);
    NamesAreReady(h, origin, vmid);
    ghost var m := r;
    r, outcome, holdsLeft, clones, left, undoFailed, held, tried, silent, log :=
      Build(h, r, h.configs[origin], disks, origin, vmid, pool, storage, Marker(origin.vmid, snapshot, created),
            smbios, genid, works, prepared);
    RanJoins(h, [], works, prepared, m, log, r);
    if outcome.Created? {
      ClonesStayInPool(disks, vmid, pool, clones);
    }
  }

  /** A clone cannot cross pools. */
  ghost predicate SamePools(disks: seq<Disk>, clones: seq<string>) {
    |clones| == |disks| && forall i :: 0 <= i < |disks| ==> PoolOf(clones[i]) == PoolOf(disks[i].dataset)
  }

  lemma ClonesStayInPool(disks: seq<Disk>, vmid: string, pool: string, clones: seq<string>)
    requires '/' !in pool && forall d :: d in disks ==> PoolOf(d.dataset) == pool
    requires Named(disks, Namer(vmid), Root(pool), clones) && |clones| == |disks|
    ensures SamePools(disks, clones)
  {
    forall i | 0 <= i < |disks| ensures PoolOf(clones[i]) == PoolOf(disks[i].dataset) {
      assert NamedAt(Namer(vmid), Root(pool), disks[i], clones[i]) && disks[i] in disks;
      PoolOfTarget(pool, Namer(vmid)(disks[i]).value);
    }
  }

  // ----------------------------------------------------------------- destroy_job

  /** What destroying a guest may take with it: its attached disks and the volumes it owns besides. */
  function Owned(h: Host, g: Guest): set<string> {
    DiskDatasets(h, g) + if g in h.others then h.others[g] else {}
  }

  ghost predicate Torn(h: Host, r: Host, g: Guest, gone: set<string>) {
    && gone <= Owned(h, g) && r.snaps <= h.snaps && r.holds <= h.holds && r.running <= h.running
    && r == Without(h, gone).(configs := h.configs - {g}, others := h.others - {g}, snaps := r.snaps, holds := r.holds,
                              running := r.running)
  }

  /** `qm stop` or `pct stop` */
  method StopGuest(h: Host, g: Guest, works: nat -> bool, log: seq<Record>)
    returns (r: Host, ghost ok: bool, log': seq<Record>)
    requires Consistent(h)
    ensures Consistent(r) && r == h.(snaps := r.snaps, running := r.running) && r.snaps <= h.snaps
    ensures log' == log + [Record(Stop(g), ok)] && StepOf(h, Stop(g), works(|log|), ok, r)
    ensures r.running == if ok then h.running - {g} else h.running
  {
    r := Interfere(h);
    ok := works(|log|);
    log' := log + [Record(Stop(g), works(|log|))];
    if works(|log|) {
      r := r.(running := r.running - {g});
    }
  }

  /** `qm destroy --purge` or `pct destroy --purge`: the configuration goes, and volumes of the guest with it.
      No dataset goes while one of its snapshots has a hold or a clone. */
  method GuestDestroy(h: Host, g: Guest, works: nat -> bool, log: seq<Record>)
    returns (r: Host, ok: bool, ghost gone: set<string>, log': seq<Record>)
    requires Consistent(h)
    ensures log' == log + [Record(DestroyGuest(g), ok)] && StepOf(h, DestroyGuest(g), works(|log|), ok, r)
    ensures Consistent(r) && r.snaps <= h.snaps
    ensures if ok then Torn(h, r, g, gone) && r.holds == h.holds else r == h.(snaps := r.snaps) && gone == {}
  {
    r := Interfere(h);
    ok := works(|log|) && g in r.configs && g !in r.running;
    log' := log + [Record(DestroyGuest(g), ok)];
    gone := {};
    if ok {
      var wanted: set<string> := *;
      var lost := set d | d in wanted && d in Owned(h, g)
                       && forall x :: x in r.holds + r.origins.Values ==> x.dataset != d;
      gone := lost;
      var kept := set x | x in r.snaps && x.dataset !in lost;
      var was := r;
      r := r.(datasets := r.datasets - lost, origins := r.origins - lost, snaps := kept, configs := r.configs - {g},
              others := r.others - {g});
      forall d | d in r.origins ensures r.origins[d] in r.snaps {
        assert was.origins[d] in was.origins.Values;
      }
      assert IsRemoved(was, g, gone, r);
    }
  }

  /** `origins` are those of the disks whose queries are answered. */
  ghost predicate OriginsHeard(h: Host, disks: seq<Disk>, origins: seq<Snap>, silent: set<string>) {
    forall x :: x in origins <==>
      exists d :: d in disks && d.dataset !in silent && d.dataset in h.origins && h.origins[d.dataset] == x
  }

  function OriginOf(d: Disk): Command { AskOrigin(d.dataset) }

  function DatasetOf(d: Disk): Command { AskDataset(d.dataset) }

  function CloneAskOf(x: Snap): Command { AskClones(x) }

  function DestroyOf(dataset: string): Command { Destroy(dataset) }

  /** `_origin_of` for every disk. `silent` are the datasets whose queries all stay silent. */
  method ReadOrigins(h: Host, disks: seq<Disk>, works: nat -> bool, log: seq<Record>)
    returns (origins: seq<Snap>, ghost silent: set<string>, log': seq<Record>)
    ensures OriginsHeard(h, disks, origins, silent) && Ran(h, log, works, log', h)
    ensures Issues(log, log', MapSeq(OriginOf, disks))
    ensures forall d :: d in disks ==> (d.dataset in silent <==> !Said(log, log', AskOrigin(d.dataset)))
  {
    origins, log' := [], log;
    ghost var answered: set<string> := {};
    IssueNothing(log);
    for i := 0 to |disks|
      invariant forall t :: t in answered ==> exists d :: d in disks && d.dataset == t
      invariant forall x :: x in origins <==> exists t :: t in answered && t in h.origins && h.origins[t] == x
      invariant Issues(log, log', MapSeq(OriginOf, disks[..i])) && Ran(h, log, works, log', h)
      invariant forall t :: t in answered <==> Said(log, log', AskOrigin(t))
    {
      var heard := works(|log'|);
      var t := disks[i].dataset;
      AskMore(h, log, works, log', h, AskOrigin(t), MapSeq(OriginOf, disks[..i]));
      MapNext(OriginOf, disks, i);
      log' := log' + [Record(AskOrigin(t), heard)];
      if heard {
        assert disks[i] in disks;
        if t in h.origins {
          origins := origins + [h.origins[t]];
        }
        answered := answered + {t};
      }
    }
    assert disks[..|disks|] == disks;
    silent := (set d | d in disks :: d.dataset) - answered;
    HeardOrigins(h, disks, origins, answered);
  }

  lemma HeardOrigins(h: Host, disks: seq<Disk>, origins: seq<Snap>, answered: set<string>)
    requires forall t :: t in answered ==> exists d :: d in disks && d.dataset == t
    requires forall x :: x in origins <==> exists t :: t in answered && t in h.origins && h.origins[t] == x
    ensures OriginsHeard(h, disks, origins, (set d | d in disks :: d.dataset) - answered)
  {
    forall x | x in origins
      ensures exists d :: d in disks && d.dataset in answered && d.dataset in h.origins && h.origins[d.dataset] == x {
      var t :| t in answered && t in h.origins && h.origins[t] == x;
      var d :| d in disks && d.dataset == t;
    }
  }

  /** The disks that are still there, as far as the queries for them are answered. */
  method FindLeftovers(h: Host, disks: seq<Disk>, works: nat -> bool, log: seq<Record>)
    returns (leftovers: seq<string>, log': seq<Record>)
    ensures forall t :: t in leftovers <==> t in h.datasets && Said(log, log', AskDataset(t))
    ensures forall t :: t in leftovers ==> exists d :: d in disks && d.dataset == t
    ensures Issues(log, log', MapSeq(DatasetOf, disks)) && Ran(h, log, works, log', h)
  {
    leftovers, log' := [], log;
    IssueNothing(log);
    for i := 0 to |disks|
      invariant forall t :: t in leftovers <==> t in h.datasets && Said(log, log', AskDataset(t))
      invariant forall t :: t in leftovers ==> exists d :: d in disks && d.dataset == t
      invariant Issues(log, log', MapSeq(DatasetOf, disks[..i])) && Ran(h, log, works, log', h)
    {
      var heard := works(|log'|);
      var t := disks[i].dataset;
      AskMore(h, log, works, log', h, AskDataset(t), MapSeq(DatasetOf, disks[..i]));
      MapNext(DatasetOf, disks, i);
      log' := log' + [Record(AskDataset(t), heard)];
      if heard && t in h.datasets {
        assert disks[i] in disks;
        leftovers := leftovers + [t];
      }
    }
    assert disks[..|disks|] == disks;
  }

  /** Failures are ignored. */
  method DestroyEach(h: Host, leftovers: seq<string>, works: nat -> bool, log: seq<Record>)
    returns (r: Host, ghost gone: set<string>, log': seq<Record>)
    requires Consistent(h)
    ensures Consistent(r) && HasLost(h, r, gone) && gone <= Elements(leftovers)
    ensures Issues(log, log', MapSeq(DestroyOf, leftovers)) && Ran(h, log, works, log', r)
    ensures forall t :: t in gone <==> Said(log, log', Destroy(t))
  {
    r, gone, log' := h, {}, log;
    IssueNothing(log);
    assert Without(h, {}) == h;
    for i := 0 to |leftovers|
      invariant Consistent(r) && HasLost(h, r, gone) && gone <= Elements(leftovers)
      invariant Issues(log, log', MapSeq(DestroyOf, leftovers[..i])) && Ran(h, log, works, log', r)
      invariant forall t :: t in gone <==> Said(log, log', Destroy(t))
    {
      var ok: bool;
      ghost var before, m := log', r;
      r, ok, log' := ZfsDestroy(r, leftovers[i], works, log');
      RanOne(h, log, works, before, m, Record(Destroy(leftovers[i]), ok), r);
      IssueOne(log, before, Record(Destroy(leftovers[i]), ok), MapSeq(DestroyOf, leftovers[..i]));
      MapNext(DestroyOf, leftovers, i);
      LostMore(h, m, r, gone, if ok then {leftovers[i]} else {});
      if ok {
        assert leftovers[i] in leftovers;
        gone := gone + {leftovers[i]};
      }
    }
    assert leftovers[..|leftovers|] == leftovers;
  }

  lemma LostMore(h: Host, m: Host, r: Host, gone: set<string>, more: set<string>)
    requires HasLost(h, m, gone) && Pruned(Without(m, more), r)
    ensures HasLost(h, r, gone + more)
  {
    assert Without(Without(h, gone), more) == Without(h, gone + more);
  }

  /** Destroys what survived of the disks. What survives this had its query silent or its destroy fail. */
  method DestroyLeftovers(h: Host, disks: seq<Disk>, works: nat -> bool, log: seq<Record>)
    returns (r: Host, leftovers: seq<string>, ghost gone: set<string>, log': seq<Record>)
    requires Consistent(h)
    ensures Consistent(r) && r == Without(h, gone).(snaps := r.snaps) && r.snaps <= h.snaps
    ensures gone <= (set d | d in disks :: d.dataset) && Ran(h, log, works, log', r)
    ensures Issues(log, log', MapSeq(DatasetOf, disks) + MapSeq(DestroyOf, leftovers))
    ensures forall t :: t in leftovers <==> t in h.datasets && Said(log, log', AskDataset(t))
    ensures forall t :: t in gone <==> Said(log, log', Destroy(t))
  {
    var middle;
    leftovers, middle := FindLeftovers(h, disks, works, log);
    r, gone, log' := DestroyEach(h, leftovers, works, middle);
    RanJoins(h, log, works, middle, h, log', r);
    JoinTwo(log, middle, log', MapSeq(DatasetOf, disks), MapSeq(DestroyOf, leftovers));
    MappedFrom(DatasetOf, disks);
    MappedFrom(DestroyOf, leftovers);
  }

  lemma MappedFrom<T>(f: T -> Command, s: seq<T>)
    ensures forall c :: c in MapSeq(f, s) ==> exists x :: x in s && f(x) == c
  {
    forall c | c in MapSeq(f, s) ensures exists x :: x in s && f(x) == c {
      var i :| 0 <= i < |s| && MapSeq(f, s)[i] == c;
      assert s[i] in s && f(s[i]) == c;
    }
  }

  /** Two parts of a transcript, and what each of them can hold. */
  lemma JoinTwo(a: seq<Record>, b: seq<Record>, c: seq<Record>, x: seq<Command>, y: seq<Command>)
    requires Issues(a, b, x) && Issues(b, c, y)
    ensures Issues(a, c, x + y)
    ensures forall k :: k !in y ==> (Said(a, c, k) <==> Said(a, b, k))
    ensures forall k :: k !in x ==> (Said(a, c, k) <==> Said(b, c, k))
  {
    Joins(a, b, c, x, y);
    OnlyThese(a, b, x);
    OnlyThese(b, c, y);
  }

  datatype Cleanup = RefusedToDestroy | DestroyFailed | Destroyed(origins: seq<Snap>, released: seq<Snap>)

  /** The queries of a cleanup that stay silent: all those for the origin of a dataset; all those for the holds or
      for the clones of a snapshot. */
  datatype DestroySilence = DestroySilence(origins: set<string>, holds: set<Snap>, clones: set<Snap>)

  function FreeReader(stillHeld: seq<Snap>, holdsLeft: seq<Snap>): Snap -> Option<Snap> {
    (x: Snap) => if x in stillHeld || x in holdsLeft then None else Some(x)
  }

  /** Released is reported what has neither a hold nor a clone, or where that was not heard. */
  ghost predicate FreeAgain(r: Host, origins: seq<Snap>, released: seq<Snap>, silent: DestroySilence) {
    forall x :: x in released <==>
      && x in origins
      && (x in r.holds ==> x in silent.holds) && (x in r.origins.Values ==> x in silent.clones)
  }

  /** `_clones_of` for every origin: those that have clones. */
  method StillCloned(h: Host, origins: seq<Snap>, works: nat -> bool, log: seq<Record>)
    returns (cloned: seq<Snap>, ghost silent: set<Snap>, log': seq<Record>)
    ensures forall x :: x in cloned <==> x in origins && x in h.origins.Values && x !in silent
    ensures Issues(log, log', MapSeq(CloneAskOf, origins)) && Ran(h, log, works, log', h)
    ensures forall x :: x in origins ==> (x in silent <==> !Said(log, log', AskClones(x)))
  {
    cloned, log' := [], log;
    ghost var answered: set<Snap> := {};
    IssueNothing(log);
    for i := 0 to |origins|
      invariant forall x :: x in answered ==> x in origins
      invariant forall x :: x in cloned <==> x in answered && x in h.origins.Values
      invariant Issues(log, log', MapSeq(CloneAskOf, origins[..i])) && Ran(h, log, works, log', h)
      invariant forall x :: x in answered <==> Said(log, log', AskClones(x))
    {
      var heard := works(|log'|);
      AskMore(h, log, works, log', h, AskClones(origins[i]), MapSeq(CloneAskOf, origins[..i]));
      MapNext(CloneAskOf, origins, i);
      log' := log' + [Record(AskClones(origins[i]), heard)];
      if heard {
        answered := answered + {origins[i]};
        if origins[i] in h.origins.Values {
          cloned := cloned + [origins[i]];
        }
      }
    }
    assert origins[..|origins|] == origins;
    silent := (set x | x in origins) - answered;
  }

  /** What a cleanup says of the holds and clones of the origins. */
  function ReportScript(origins: seq<Snap>): seq<Command> {
    Releases(origins) + Asks(origins) + MapSeq(CloneAskOf, origins)
  }

  /** A hold stays when its release has not worked; silent are those of which no query was answered. */
  ghost predicate ReportIsSaid(log: seq<Record>, log': seq<Record>, h: Host, r: Host, origins: seq<Snap>,
                               silent: DestroySilence) {
    && (forall x :: x in h.holds ==> (x in r.holds <==> !Said(log, log', Release(x))))
    && (forall x :: x in origins ==> (x in silent.holds <==> !Said(log, log', AskHolds(x))))
    && (forall x :: x in origins ==> (x in silent.clones <==> !Said(log, log', AskClones(x))))
  }

  /** Asks whether the guest runs, and stops it then. */
  method StopIfRunning(h: Host, g: Guest, works: nat -> bool, log: seq<Record>)
    returns (r: Host, ghost stopped: bool, log': seq<Record>)
    requires Consistent(h)
    ensures Ran(h, log, works, log', r)
    ensures Consistent(r) && r == h.(snaps := r.snaps, running := r.running)
    ensures r.snaps <= h.snaps && r.running <= h.running
    ensures Issues(log, log', StopScript(g, stopped)) && (stopped <==> g in h.running && Said(log, log', AskStatus(g)))
    ensures r.running == if Said(log, log', Stop(g)) then h.running - {g} else h.running
  {
    r := h;
    var heard := works(|log|);
    log' := log + [Record(AskStatus(g), heard)];
    Asked(h, log, works, AskStatus(g));
    stopped := heard && g in r.running;
    if heard && g in r.running {
      ghost var ok;
      ghost var before := log';
      r, ok, log' := StopGuest(r, g, works, log');
      IssueOne(log, before, Record(Stop(g), ok), [AskStatus(g)]);
      RanOne(h, log, works, before, h, Record(Stop(g), ok), r);
    }
  }

  function StopScript(g: Guest, stopped: bool): seq<Command> {
    [AskStatus(g)] + if stopped then [Stop(g)] else []
  }

  method StopAndDestroy(h: Host, g: Guest, works: nat -> bool, log: seq<Record>)
    returns (r: Host, ok: bool, ghost gone: set<string>, ghost stopped: bool, log': seq<Record>)
    requires Consistent(h)
    ensures Consistent(r) && r.snaps <= h.snaps && Ran(h, log, works, log', r)
    ensures if ok then Torn(h, r, g, gone) && r.holds == h.holds
            else r == h.(snaps := r.snaps, running := r.running) && gone == {}
    ensures Issues(log, log', StopScript(g, stopped) + [DestroyGuest(g)] + [])
    ensures stopped <==> g in h.running && Said(log, log', AskStatus(g))
    ensures ok <==> Said(log, log', DestroyGuest(g))
  {
    var middle;
    r, stopped, middle := StopIfRunning(h, g, works, log);
    ghost var m := r;
    r, ok, gone, log' := GuestDestroy(r, g, works, middle);
    RanOne(h, log, works, middle, m, Record(DestroyGuest(g), ok), r);
    TornScript(log, middle, log', g, stopped, ok);
    SameOwned(h, m, g);
  }

  /** Stop, destroy, leftovers, holds. */
  method TearDown(h: Host, g: Guest, disks: seq<Disk>, origins: seq<Snap>, ghost unread: set<string>,
                  works: nat -> bool, log: seq<Record>)
    returns (r: Host, outcome: Cleanup, ghost gone: set<string>, ghost silent: DestroySilence, ghost stopped: bool,
             leftovers: seq<string>, log': seq<Record>)
    requires Consistent(h) && disks == Disks(h, g)
    ensures Consistent(r) && r.snaps <= h.snaps && !outcome.RefusedToDestroy?
    ensures outcome.DestroyFailed? ==> r == h.(snaps := r.snaps, running := r.running) && gone == {}
    ensures outcome.Destroyed? ==> Torn(h, r, g, gone) && FreeAgain(r, origins, outcome.released, silent)
    ensures silent.origins == unread && (outcome.Destroyed? ==> outcome.origins == origins)
    ensures Ran(h, log, works, log', r)
    ensures Issues(log, log', TearScript(g, disks, origins, outcome, stopped, leftovers))
    ensures stopped <==> g in h.running && Said(log, log', AskStatus(g))
    ensures outcome.Destroyed? ==> ReportIsSaid(log, log', h, r, origins, silent)
    ensures outcome.Destroyed? ==> LeftoversAreSaid(log, log', r, disks)
    ensures outcome.Destroyed? <==> Said(log, log', DestroyGuest(g))
  {
    silent, leftovers := DestroySilence(unread, {}, {}), [];
    var ok, log2, log3;
    r, ok, gone, stopped, log2 := StopAndDestroy(h, g, works, log);
    log' := log2;
    if !ok {
      outcome := DestroyFailed;
      return;
    }
    ghost var torn := r;
    r, leftovers, gone, log3 := FinishDestroy(h, r, g, disks, gone, works, log2);
    RanJoins(h, log, works, log2, torn, log3, r);
    ghost var finished := r;
    r, outcome, silent, log' := Report(r, origins, unread, works, log3);
    RanJoins(h, log, works, log3, finished, log', r);
    JoinTear(log, log2, log3, log', g, disks, origins, stopped, leftovers);
  }

  /** A disk survives only when the query for it stayed silent or its destroy failed. */
  ghost predicate LeftoversAreSaid(log: seq<Record>, log': seq<Record>, r: Host, disks: seq<Disk>) {
    forall d :: d in disks && d.dataset in r.datasets ==>
      !Said(log, log', AskDataset(d.dataset)) || !Said(log, log', Destroy(d.dataset))
  }

  /** All that a cleanup says after it has read the origins. */
  function TearScript(g: Guest, disks: seq<Disk>, origins: seq<Snap>, outcome: Cleanup, stopped: bool,
                      leftovers: seq<string>): seq<Command> {
    StopScript(g, stopped) + [DestroyGuest(g)]
    + if outcome.Destroyed? then MapSeq(DatasetOf, disks) + MapSeq(DestroyOf, leftovers) + ReportScript(origins) else []
  }

  lemma TornScript(log: seq<Record>, log1: seq<Record>, log2: seq<Record>, g: Guest, stopped: bool, ok: bool)
    requires Issues(log, log1, StopScript(g, stopped)) && log2 == log1 + [Record(DestroyGuest(g), ok)]
    ensures Issues(log, log2, StopScript(g, stopped) + [DestroyGuest(g)])
    ensures Said(log, log2, AskStatus(g)) <==> Said(log, log1, AskStatus(g))
    ensures Said(log, log2, DestroyGuest(g)) <==> ok
    ensures StopScript(g, stopped) + [DestroyGuest(g)] + [] == StopScript(g, stopped) + [DestroyGuest(g)]
  {
    IssueOne(log, log1, Record(DestroyGuest(g), ok), StopScript(g, stopped));
    OnlyThese(log, log1, StopScript(g, stopped));
  }

  lemma JoinTear(log: seq<Record>, log2: seq<Record>, log3: seq<Record>, log4: seq<Record>, g: Guest, disks: seq<Disk>,
                 origins: seq<Snap>, stopped: bool, leftovers: seq<string>)
    requires Issues(log, log2, StopScript(g, stopped) + [DestroyGuest(g)])
    requires Issues(log2, log3, MapSeq(DatasetOf, disks) + MapSeq(DestroyOf, leftovers))
    requires Issues(log3, log4, ReportScript(origins))
    ensures Issues(log, log4, StopScript(g, stopped) + [DestroyGuest(g)]
                              + (MapSeq(DatasetOf, disks) + MapSeq(DestroyOf, leftovers) + ReportScript(origins)))
    ensures forall c: Command :: c.AskStatus? || c.DestroyGuest? ==> (Said(log, log4, c) <==> Said(log, log2, c))
    ensures forall c: Command :: c.AskDataset? || c.Destroy? ==> (Said(log, log4, c) <==> Said(log2, log3, c))
    ensures forall c: Command :: c.Release? || c.AskHolds? || c.AskClones? ==>
              (Said(log, log4, c) <==> Said(log3, log4, c))
  {
    var x := StopScript(g, stopped) + [DestroyGuest(g)];
    var y := MapSeq(DatasetOf, disks) + MapSeq(DestroyOf, leftovers);
    JoinTwo(log2, log3, log4, y, ReportScript(origins));
    JoinTwo(log, log2, log4, x, y + ReportScript(origins));
    MappedFrom(DatasetOf, disks);
    MappedFrom(DestroyOf, leftovers);
    MappedFrom(CloneAskOf, origins);
    ReleasesAndAsks(origins);
  }

  /** Releases the holds and reports on the origins. */
  method Report(h: Host, origins: seq<Snap>, ghost unread: set<string>, works: nat -> bool, log: seq<Record>)
    returns (r: Host, outcome: Cleanup, ghost silent: DestroySilence, log': seq<Record>)
    requires Consistent(h)
    ensures Consistent(r) && r == h.(snaps := r.snaps, holds := r.holds) && r.snaps <= h.snaps && r.holds <= h.holds
    ensures outcome.Destroyed? && outcome.origins == origins && FreeAgain(r, origins, outcome.released, silent)
    ensures silent.origins == unread && Ran(h, log, works, log', r)
    ensures Issues(log, log', ReportScript(origins)) && ReportIsSaid(log, log', h, r, origins, silent)
  {
    var holdsLeft, stillCloned, middle;
    ghost var ofHolds, ofClones;
    r, holdsLeft, ofHolds, middle := ReleaseHolds(h, origins, works, log);
    stillCloned, ofClones, log' := StillCloned(r, origins, works, middle);
    RanJoins(h, log, works, middle, r, log', r);
    JoinTwo(log, middle, log', Releases(origins) + Asks(origins), MapSeq(CloneAskOf, origins));
    ReleasesAndAsks(origins);
    MappedFrom(CloneAskOf, origins);
    outcome := Destroyed(origins, Collect(FreeReader(stillCloned, holdsLeft), origins));
    silent := DestroySilence(unread, ofHolds, ofClones);
    forall x ensures x in outcome.released <==> x in origins && x !in stillCloned && x !in holdsLeft {
      CollectMember(FreeReader(stillCloned, holdsLeft), origins, x);
    }
  }

  method FinishDestroy(ghost h: Host, m: Host, g: Guest, disks: seq<Disk>, ghost gone: set<string>,
                       works: nat -> bool, log: seq<Record>)
    returns (r: Host, leftovers: seq<string>, ghost gone': set<string>, log': seq<Record>)
    requires Consistent(m) && disks == Disks(h, g) && Torn(h, m, g, gone)
    ensures Consistent(r) && Torn(h, r, g, gone') && r.holds == m.holds && Ran(m, log, works, log', r)
    ensures Issues(log, log', MapSeq(DatasetOf, disks) + MapSeq(DestroyOf, leftovers))
    ensures LeftoversAreSaid(log, log', r, disks)
  {
    ghost var more;
    r, leftovers, more, log' := DestroyLeftovers(m, disks, works, log);
    gone' := gone + more;
    TornMore(h, m, r, g, gone, more);
  }

  lemma TornMore(h: Host, m: Host, r: Host, g: Guest, gone: set<string>, more: set<string>)
    requires Torn(h, m, g, gone) && more <= DiskDatasets(h, g)
    requires r == Without(m, more).(snaps := r.snaps) && r.snaps <= m.snaps
    ensures Torn(h, r, g, gone + more)
  {
    assert Without(Without(h, gone), more) == Without(h, gone + more);
  }

  lemma SameOwned(h: Host, m: Host, g: Guest)
    requires m == h.(snaps := m.snaps, running := m.running)
    ensures Owned(h, g) == Owned(m, g)
  {
    CollectSame(Resolver(h), Resolver(m), Attached(h, g));
  }

  /** `destroy_job` */
  method DestroyJob(h: Host, g: Guest, works: nat -> bool)
    returns (r: Host, outcome: Cleanup, ghost gone: set<string>, ghost silent: DestroySilence, log: seq<Record>)
    requires Consistent(h)
    ensures Consistent(r) && r.snaps <= h.snaps && Ran(h, [], works, log, r)
    ensures outcome.RefusedToDestroy? <==> !works(0) || !Proven(h, g)
    ensures outcome.RefusedToDestroy? ==> r == h && log == [Record(ReadGuest(g), works(0))]
    ensures outcome.DestroyFailed? ==> r == h.(snaps := r.snaps, running := r.running) && gone == {}
    ensures outcome.Destroyed? ==> Torn(h, r, g, gone) && OriginsHeard(h, Disks(h, g), outcome.origins, silent.origins)
    ensures outcome.Destroyed? ==> FreeAgain(r, outcome.origins, outcome.released, silent)
    ensures !outcome.RefusedToDestroy? ==>
      && [Record(ReadGuest(g), true)] <= log
      && exists stopped, leftovers, origins ::
           DestroyIsSaid(h, r, g, outcome, silent, [Record(ReadGuest(g), true)], log, stopped, leftovers, origins)
  {
    var heard := works(0);
    var read := [Record(ReadGuest(g), heard)];
    r, gone, silent, log := h, {}, DestroySilence({}, {}, {}), read;
    Asked(h, [], works, ReadGuest(g));
    if !heard || !Proven(h, g) {
      outcome := RefusedToDestroy;
      return;
    }
    var entries := ParseDisks(h.configs[g], g.lxc);
    var disks := DisksIn(h, entries);
    var origins, leftovers, asked;
    ghost var unread, stopped;
    origins, unread, asked := ReadOrigins(h, disks, works, read);
    r, outcome, gone, silent, stopped, leftovers, log := TearDown(h, g, disks, origins, unread, works, asked);
    RanJoins(h, read, works, asked, h, log, r);
    RanJoins(h, [], works, read, h, log, r);
    JoinDestroy(read, asked, log, g, disks, origins, outcome, stopped, leftovers);
    assert DestroyIsSaid(h, r, g, outcome, silent, read, log, stopped, leftovers, origins);
  }

  /** What a cleanup has said, and what came of each command: the origins are read first; the guest is stopped
      exactly when it is heard to run; it is destroyed; what is left is destroyed; the origins are released. */
  ghost predicate DestroyIsSaid(h: Host, r: Host, g: Guest, outcome: Cleanup, silent: DestroySilence,
                                log: seq<Record>, log': seq<Record>, stopped: bool, leftovers: seq<string>,
                                origins: seq<Snap>) {
    var disks := Disks(h, g);
    && Issues(log, log', MapSeq(OriginOf, disks) + TearScript(g, disks, origins, outcome, stopped, leftovers))
    && (stopped <==> g in h.running && Said(log, log', AskStatus(g)))
    && (forall d :: d in disks ==> (d.dataset in silent.origins <==> !Said(log, log', AskOrigin(d.dataset))))
    && (outcome.Destroyed? <==> Said(log, log', DestroyGuest(g)))
    && (outcome.Destroyed? ==> outcome.origins == origins && LeftoversAreSaid(log, log', r, disks))
    && (outcome.Destroyed? ==> ReportIsSaid(log, log', h, r, origins, silent))
  }

  lemma JoinDestroy(log: seq<Record>, asked: seq<Record>, log': seq<Record>, g: Guest, disks: seq<Disk>,
                    origins: seq<Snap>, outcome: Cleanup, stopped: bool, leftovers: seq<string>)
    requires Issues(log, asked, MapSeq(OriginOf, disks))
    requires Issues(asked, log', TearScript(g, disks, origins, outcome, stopped, leftovers))
    ensures Issues(log, log', MapSeq(OriginOf, disks) + TearScript(g, disks, origins, outcome, stopped, leftovers))
    ensures forall c: Command :: c.AskOrigin? ==> (Said(log, log', c) <==> Said(log, asked, c))
    ensures forall c: Command :: !c.AskOrigin? ==> (Said(log, log', c) <==> Said(asked, log', c))
  {
    var x, y := MapSeq(OriginOf, disks), TearScript(g, disks, origins, outcome, stopped, leftovers);
    JoinTwo(log, asked, log', x, y);
    MappedFrom(OriginOf, disks);
    MappedFrom(DatasetOf, disks);
    MappedFrom(DestroyOf, leftovers);
    MappedFrom(CloneAskOf, origins);
    ReleasesAndAsks(origins);
  }

  /** No attached volume outside `<pool>/clone` is destroyed, whatever guest is named:
      what goes is a clone among the attached disks or a volume the guest owns besides. */
  lemma OnlyClonesGo(h: Host, r: Host, g: Guest, gone: set<string>, dataset: string)
    requires Proven(h, g) && Torn(h, r, g, gone) && dataset in h.datasets && dataset !in r.datasets
    ensures dataset in DiskDatasets(h, g) ==> exists pool, n :: IsCloneOf(dataset, pool, n)
    ensures dataset in DiskDatasets(h, g) || (g in h.others && dataset in h.others[g])
  {
    UnderCloneRootIff(dataset);
  }

  lemma AllDisksAreClones(r: Host, g: Guest, disks: seq<Disk>, clones: seq<string>)
    requires ClonesOf(r, g, disks, clones) && |Disks(r, g)| == |disks|
    ensures DiskDatasets(r, g) == Elements(clones)
  {
    forall t | t in clones ensures t in DiskDatasets(r, g) {
      var i :| 0 <= i < |clones| && clones[i] == t;
      assert Disks(r, g)[i] in Disks(r, g);
    }
  }

  lemma SameDisks(r: Host, m: Host, g: Guest)
    requires m == r.(snaps := m.snaps, holds := m.holds, running := m.running)
    ensures Disks(m, g) == Disks(r, g) && Owned(m, g) == Owned(r, g)
  {
    CollectSame(Resolver(r), Resolver(m), Attached(r, g));
  }

  lemma NoLongerClone(before: map<string, Snap>, after: map<string, Snap>, gone: set<string>, d: string)
    requires d in before && after == before - gone && before[d] !in after.Values
    ensures d in gone
  {
    forall t | t in before && t !in gone ensures before[t] in after.Values {
      assert t in after && after[t] in after.Values;
    }
  }

  lemma DisksHaveOrigins(r: Host, g: Guest, disks: seq<Disk>, clones: seq<string>, d: Disk)
    requires ClonesOf(r, g, disks, clones) && (forall t :: t in clones ==> t in r.origins) && d in Disks(r, g)
    ensures d.dataset in r.origins
  {
    var i :| 0 <= i < |Disks(r, g)| && Disks(r, g)[i] == d;
    assert clones[i] in clones;
  }

  /** The origin of every attached disk is reported released. */
  ghost predicate AllReleased(m: Host, g: Guest, released: seq<Snap>) {
    forall d :: d in Disks(m, g) && d.dataset in m.origins ==> m.origins[d.dataset] in released
  }

  /** Where the query for clones stayed silent, the clone is gone all the same. */
  ghost predicate NoneMissed(m: Host, g: Guest, gone: set<string>, silent: DestroySilence) {
    forall d :: d in Disks(m, g) && d.dataset in m.origins && m.origins[d.dataset] in silent.clones ==>
      d.dataset in gone
  }

  /** When all origins are reported released, all disks have gone, save where the query for clones
      stayed silent. */
  lemma ReleasedHaveGone(m: Host, s: Host, g: Guest, gone: set<string>, origins: seq<Snap>, released: seq<Snap>,
                         silent: DestroySilence)
    requires Torn(m, s, g, gone) && FreeAgain(s, origins, released, silent) && AllReleased(m, g, released)
    requires forall d :: d in Disks(m, g) ==> d.dataset in m.origins
    ensures DiskDatasets(m, g) <= gone <==> NoneMissed(m, g, gone, silent)
  {
    if NoneMissed(m, g, gone, silent) {
      forall d | d in Disks(m, g) ensures d.dataset in gone {
        if m.origins[d.dataset] !in silent.clones {
          NoLongerClone(m.origins, s.origins, gone, d.dataset);
        }
      }
    }
  }

  /** Everything is as it was before, apart from the recovery root. */
  ghost predicate Restored(h: Host, s: Host, pool: string) {
    s.datasets == h.datasets + {Root(pool)} && s.origins == h.origins && s.configs == h.configs
  }

  /** Creating a recovery guest under a free identifier and destroying it, with the pruner at work in
      between: when the origins of all its disks are reported released, everything is as it was before
      exactly when no clone has survived whose query stayed silent. */
  lemma CreateThenDestroy(h: Host, r: Host, m: Host, s: Host, origin: Guest, pool: string, snapshot: string, g: Guest,
                          clones: seq<string>, gone: set<string>, origins: seq<Snap>, released: seq<Snap>,
                          silent: DestroySilence)
    requires Consistent(h) && Recovered(h, r, origin, pool, snapshot, g, clones) && NoIndentedHeaders(Main(h, origin))
    requires IsFree(h, g.vmid) && m == r.(snaps := m.snaps, holds := m.holds, running := m.running)
    requires Torn(m, s, g, gone) && FreeAgain(s, origins, released, silent) && AllReleased(m, g, released)
    ensures Restored(h, s, pool) <==> NoneMissed(m, g, gone, silent)
  {
    SameDisks(r, m, g);
    AllDisksAreClones(r, g, Disks(h, origin), clones);
    forall d | d in Disks(m, g) ensures d.dataset in m.origins {
      DisksHaveOrigins(r, g, Disks(h, origin), clones, d);
    }
    ReleasedHaveGone(m, s, g, gone, origins, released, silent);
    assert g == Guest(g.lxc, g.vmid);
    TakenBackIff(h, r, s, {Root(pool)}, Elements(clones), gone, g);
  }

  lemma TakenBackIff(h: Host, r: Host, s: Host, root: set<string>, clones: set<string>, gone: set<string>, g: Guest)
    requires Consistent(h) && clones !! h.datasets && clones !! root && gone <= clones
    requires r.datasets == h.datasets + root + clones && r.origins.Keys == h.origins.Keys + clones
    requires forall d :: d in h.origins && d !in clones ==> r.origins[d] == h.origins[d]
    requires g !in h.configs && g in r.configs && r.configs == h.configs[g := r.configs[g]]
    requires s.datasets == r.datasets - gone && s.origins == r.origins - gone && s.configs == r.configs - {g}
    ensures (s.datasets == h.datasets + root && s.origins == h.origins && s.configs == h.configs) <==> clones <= gone
  {
    if clones <= gone {
      assert clones == gone;
    }
    if t :| t in clones && t !in gone {
      assert t in s.datasets && t !in h.datasets + root;
    }
  }

  /** The query for the clones of an origin stays silent, and its clone survives: the origin is
      reported released although it still has a clone. */
  lemma SilenceIsTakenForReleased(m: Host, s: Host, g: Guest, gone: set<string>, origins: seq<Snap>,
                                  released: seq<Snap>, silent: DestroySilence, d: Disk)
    requires Torn(m, s, g, gone) && FreeAgain(s, origins, released, silent)
    requires d in Disks(m, g) && d.dataset in m.origins && d.dataset !in gone && m.origins[d.dataset] in origins
    requires m.origins[d.dataset] in silent.clones && m.origins[d.dataset] !in s.holds
    ensures m.origins[d.dataset] in released && m.origins[d.dataset] in s.origins.Values
  {
    assert s.origins[d.dataset] in s.origins.Values;
  }
}
