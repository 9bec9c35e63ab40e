/** Which snapshots a migration sends, and on what base: the plan of `preflight` and
    `_run_transfer` of `app/migrate.py`.

    A store maps every dataset to its snapshot labels, oldest first. Whether a command
    that can work does work, and which queries are answered, is read from lists of answers. */
module MigrationPlan {
  import opened Text
  import RecoveryGuest

  type Store = map<string, seq<string>>

  datatype DiskPlan = DiskPlan(source: string, target: string, exists_: bool, common: Option<string>)

  // ----------------------------------------------------------------- the plan

  const KINDS: seq<string> := ["vm", "subvol", "base", "basevol"]

  /** `^(vm|subvol|base|basevol)-<vmid>-` becomes the same with the new identifier. */
  function Renamed(name: string, vmid: string, newVmid: string): string {
    RenamedBy(KINDS, name, "-" + vmid + "-", "-" + newVmid + "-")
  }

  function RenamedBy(kinds: seq<string>, name: string, old_: string, new_: string): string {
    if kinds == [] then name
    else if kinds[0] + old_ <= name then kinds[0] + new_ + name[|kinds[0] + old_|..]
    else RenamedBy(kinds[1..], name, old_, new_)
  }

  lemma KindMatches(kind: string, own: string, tail: string, rest: string)
    requires '-' !in kind && '-' !in own && kind + ("-" + tail) <= own + ("-" + rest)
    ensures kind == own
  {
    var a, b := kind + ("-" + tail), own + ("-" + rest);
    assert a[..|kind|] == kind && b[..|own|] == own;
    FindAt(b, '-', |own|);
    FindAt(b, '-', |kind|);
  }

  lemma {:induction false} RenamedAmong(kinds: seq<string>, kind: string, vmid: string, newVmid: string, rest: string)
    requires kind in kinds && forall k :: k in kinds ==> '-' !in k
    ensures RenamedBy(kinds, kind + ("-" + vmid + "-") + rest, "-" + vmid + "-", "-" + newVmid + "-")
         == kind + ("-" + newVmid + "-") + rest
  {
    var name, old_ := kind + ("-" + vmid + "-") + rest, "-" + vmid + "-";
    if kinds[0] + old_ <= name {
      assert kinds[0] + old_ == kinds[0] + ("-" + (vmid + "-")) && name == kind + ("-" + (vmid + "-" + rest));
      KindMatches(kinds[0], kind, vmid + "-", vmid + "-" + rest);
      assert name[|kind + old_|..] == rest;
    } else {
      assert kind + old_ <= name;
      RenamedAmong(kinds[1..], kind, vmid, newVmid, rest);
    }
  }

  /** The name of a guest volume of one of these kinds: kind, identifier, and the rest. */
  ghost predicate IsVolumeOf(name: string, kinds: seq<string>, old_: string, kind: string, rest: string) {
    kind in kinds && name == kind + old_ + rest
  }

  /** A guest volume of either kind, template or not, gets the new identifier; any other name is kept. */
  lemma RenamedIff(name: string, vmid: string, newVmid: string)
    ensures forall kind, rest :: IsVolumeOf(name, ["vm", "subvol", "base", "basevol"], "-" + vmid + "-", kind, rest) ==>
              Renamed(name, vmid, newVmid) == kind + ("-" + newVmid + "-") + rest
    ensures (forall kind, rest :: !IsVolumeOf(name, ["vm", "subvol", "base", "basevol"], "-" + vmid + "-", kind,
                                              rest)) ==>
              Renamed(name, vmid, newVmid) == name
  {
    forall kind, rest | IsVolumeOf(name, KINDS, "-" + vmid + "-", kind, rest)
      ensures Renamed(name, vmid, newVmid) == kind + ("-" + newVmid + "-") + rest {
      RenamedAmong(KINDS, kind, vmid, newVmid, rest);
    }
    NotRenamed(KINDS, name, "-" + vmid + "-", "-" + newVmid + "-");
  }

  lemma {:induction false} NotRenamed(kinds: seq<string>, name: string, old_: string, new_: string)
    ensures (forall kind, rest :: !IsVolumeOf(name, kinds, old_, kind, rest)) ==>
              RenamedBy(kinds, name, old_, new_) == name
  {
    if kinds != [] {
      if kinds[0] + old_ <= name {
        assert IsVolumeOf(name, kinds, old_, kinds[0], name[|kinds[0] + old_|..]);
      } else {
        NotRenamed(kinds[1..], name, old_, new_);
        if forall kind, rest :: !IsVolumeOf(name, kinds, old_, kind, rest) {
          forall kind, rest ensures !IsVolumeOf(name, kinds[1..], old_, kind, rest) {
            assert !IsVolumeOf(name, kinds, old_, kind, rest);
          }
        }
      }
    }
  }

  /** Where a dataset goes: below the chosen root, under its own name with the new identifier. */
  function TargetOf(root: string, vmid: string, newVmid: string): string -> string {
    (dataset: string) => root + "/" + Renamed(RecoveryGuest.Basename(dataset), vmid, newVmid)
  }

  /** The newest label of which `p` holds. */
  function Newest(p: string -> bool, snaps: seq<string>): Option<string> {
    if snaps == [] then None
    else
      var n := |snaps| - 1;
      if p(snaps[n]) then Some(snaps[n]) else Newest(p, snaps[..n])
  }

  lemma {:induction false} NewestIsLast(p: string -> bool, snaps: seq<string>)
    ensures Newest(p, snaps).None? <==> forall s :: s in snaps ==> !p(s)
    ensures Newest(p, snaps).Some? ==>
      exists i :: 0 <= i < |snaps| && snaps[i] == Newest(p, snaps).value && p(snaps[i])
                  && forall j :: i < j < |snaps| ==> !p(snaps[j])
  {
    if snaps != [] {
      var n := |snaps| - 1;
      assert snaps == snaps[..n] + [snaps[n]];
      if !p(snaps[n]) {
        NewestIsLast(p, snaps[..n]);
        if Newest(p, snaps).Some? {
          var i :| 0 <= i < n && snaps[..n][i] == Newest(p, snaps).value && p(snaps[..n][i])
                   && forall j :: i < j < n ==> !p(snaps[..n][j]);
          forall j | i < j < |snaps| ensures !p(snaps[j]) {
            if j < n {
              assert snaps[j] == snaps[..n][j];
            }
          }
        }
      }
    }
  }

  /** The newest snapshot of the target that the source has as well. */
  function Common(source: seq<string>, target: seq<string>): Option<string> { Newest(s => s in source, target) }

  lemma CommonIsNewest(source: seq<string>, target: seq<string>)
    ensures Common(source, target).None? <==> forall s :: s in target ==> s !in source
    ensures Common(source, target).Some? ==>
      exists i :: 0 <= i < |target| && target[i] == Common(source, target).value && target[i] in source
                  && forall j :: i < j < |target| ==> target[j] !in source
  {
    NewestIsLast(s => s in source, target);
  }

  /** Which of the queries for one disk are answered. A silent one reads as "nothing there". */
  datatype Heard = Heard(exists_: bool, ofSource: bool, ofTarget: bool)

  const ALL_HEARD := Heard(true, true, true)

  function PlanFor(source: Store, target: Store, dataset: string, tds: string, heard: Heard): DiskPlan {
    var found := heard.exists_ && tds in target;
    var common :=
      if found && heard.ofSource && heard.ofTarget && dataset in source then Common(source[dataset], target[tds])
      else None;
    DiskPlan(dataset, tds, found, common)
  }

  ghost predicate IsPlan(source: Store, target: Store, disks: seq<string>, goesTo: string -> string, heard: seq<Heard>,
                         plan: seq<DiskPlan>) {
    && |plan| == |disks| == |heard|
    && forall i :: 0 <= i < |plan| ==> plan[i] == PlanFor(source, target, disks[i], goesTo(disks[i]), heard[i])
  }

  /** No target exists without a common snapshot. */
  predicate Allowed(plan: seq<DiskPlan>) { forall p :: p in plan && p.exists_ ==> p.common.Some? }

  method FindCommon(source: seq<string>, target: seq<string>) returns (common: Option<string>)
    ensures common == Common(source, target)
  {
    var i := |target|;
    ghost var p := (s: string) => s in source;
    assert target[..i] == target;
    while i > 0
      invariant 0 <= i <= |target| && Newest(p, target) == Newest(p, target[..i])
    {
      i := i - 1;
      assert target[..i + 1][..i] == target[..i];
      if target[i] in source {
        return Some(target[i]);
      }
    }
    common := None;
  }

  /** The plan of `preflight`, and whether it is allowed to be carried out.
      `otherChecks`: no check of anything but the target datasets is in error. */
  method Preflight(source: Store, target: Store, disks: seq<string>, root: string, vmid: string, newVmid: string,
                   heard: seq<Heard>, otherChecks: bool)
    returns (plan: seq<DiskPlan>, allowed: bool)
    requires |heard| == |disks|
    ensures IsPlan(source, target, disks, TargetOf(root, vmid, newVmid), heard, plan)
    ensures allowed <==> otherChecks && Allowed(plan)
  {
    plan, allowed := PlanDisks(source, target, disks, TargetOf(root, vmid, newVmid), heard);
    allowed := allowed && otherChecks;
  }

  method PlanDisks(source: Store, target: Store, disks: seq<string>, goesTo: string -> string, heard: seq<Heard>)
    returns (plan: seq<DiskPlan>, allowed: bool)
    requires |heard| == |disks|
    ensures IsPlan(source, target, disks, goesTo, heard, plan) && allowed == Allowed(plan)
  {
    plan, allowed := [], true;
    for i := 0 to |disks|
      invariant IsPlan(source, target, disks[..i], goesTo, heard[..i], plan) && allowed == Allowed(plan)
    {
      var tds := goesTo(disks[i]);
      var found := heard[i].exists_ && tds in target;
      var common := None;
      if found {
        common := FindCommon(Listing(source, disks[i], heard[i].ofSource), Listing(target, tds, heard[i].ofTarget));
        NothingInCommon(Listing(source, disks[i], heard[i].ofSource), Listing(target, tds, heard[i].ofTarget));
      }
      plan := plan + [DiskPlan(disks[i], tds, found, common)];
      allowed := allowed && (found ==> common.Some?);
    }
    assert disks[..|disks|] == disks && heard[..|heard|] == heard;
  }

  /** `list_snapshots` */
  function Listing(store: Store, dataset: string, heard: bool): seq<string> {
    if heard && dataset in store then store[dataset] else []
  }

  lemma NothingInCommon(source: seq<string>, target: seq<string>)
    ensures source == [] || target == [] ==> Common(source, target).None?
  {
    CommonIsNewest(source, target);
  }

  // ------------------------------------------------------------ the transfer

  /** `zfs snapshot` of each dataset; a failure does not keep the next from being tried. */
  function Snapshotted(source: Store, plan: seq<DiskPlan>, snap: string, works: seq<bool>): (Store, bool)
    requires |works| == |plan|
  {
    if plan == [] then (source, true)
    else
      var n := |plan| - 1;
      var (s, ok) := Snapshotted(source, plan[..n], snap, works[..n]);
      var ds := plan[n].source;
      if works[n] && ds in s && snap !in s[ds] then (s[ds := s[ds] + [snap]], ok) else (s, false)
  }

  /** The snapshots of a dataset up to and including a base. */
  function UpTo(snaps: seq<string>, base: string): seq<string> {
    if snaps == [] then []
    else if snaps[|snaps| - 1] == base then snaps
    else UpTo(snaps[..|snaps| - 1], base)
  }

  /** `zfs send | zfs recv -F`: a full stream makes or replaces the dataset, an incremental
      one needs its base on both sides and goes on from there. */
  function CanSend(source: Store, target: Store, p: DiskPlan, snap: string): bool {
    && p.source in source && snap in source[p.source]
    && (p.common.Some? ==>
          p.common.value in source[p.source] && p.target in target && p.common.value in target[p.target])
  }

  function Received(target: Store, p: DiskPlan, snap: string): Store
    requires p.common.Some? ==> p.target in target
  {
    target[p.target := if p.common.Some? then UpTo(target[p.target], p.common.value) + [snap] else [snap]]
  }

  /** A full stream into a dataset that is there destroys what it holds. */
  predicate Clobbers(target: Store, p: DiskPlan) { p.common.None? && p.target in target }

  /** `sent`: how many entries of the plan have been received. */
  datatype Sending = Sending(target: Store, ok: bool, sent: nat, clobbered: bool)

  /** Disk after disk; the first failure ends it. */
  function SendAll(source: Store, target: Store, plan: seq<DiskPlan>, snap: string, works: seq<bool>): Sending
    requires |works| == |plan|
  {
    if plan == [] then Sending(target, true, 0, false)
    else
      var n := |plan| - 1;
      var s := SendAll(source, target, plan[..n], snap, works[..n]);
      if !s.ok then s
      else if works[n] && CanSend(source, s.target, plan[n], snap) then
        Sending(Received(s.target, plan[n], snap), true, |plan|, s.clobbered || Clobbers(s.target, plan[n]))
      else s.(ok := false)
  }

  /** `_snapshot_all` */
  method SnapshotAll(source: Store, plan: seq<DiskPlan>, snap: string, works: seq<bool>)
    returns (source': Store, ok: bool)
    requires |works| == |plan|
    ensures (source', ok) == Snapshotted(source, plan, snap, works)
  {
    source', ok := source, true;
    for i := 0 to |plan|
      invariant (source', ok) == Snapshotted(source, plan[..i], snap, works[..i])
    {
      assert plan[..i + 1][..i] == plan[..i] && works[..i + 1][..i] == works[..i];
      var ds := plan[i].source;
      if works[i] && ds in source' && snap !in source'[ds] {
        source' := source'[ds := source'[ds] + [snap]];
      } else {
        ok := false;
      }
    }
    assert plan[..|plan|] == plan && works[..|plan|] == works;
  }

  method TransferDisks(source: Store, target: Store, plan: seq<DiskPlan>, snap: string, works: seq<bool>)
    returns (target': Store, ok: bool)
    requires |works| == |plan|
    ensures target' == SendAll(source, target, plan, snap, works).target
    ensures ok == SendAll(source, target, plan, snap, works).ok
  {
    target', ok := target, true;
    for i := 0 to |plan|
      invariant target' == SendAll(source, target, plan[..i], snap, works[..i]).target
      invariant ok == SendAll(source, target, plan[..i], snap, works[..i]).ok == true
    {
      assert plan[..i + 1][..i] == plan[..i] && works[..i + 1][..i] == works[..i];
      if works[i] && CanSend(source, target', plan[i], snap) {
        target' := Received(target', plan[i], snap);
      } else {
        ok := false;
        FailureStays(source, target, plan, snap, works, i + 1);
        return;
      }
    }
    assert plan[..|plan|] == plan && works[..|plan|] == works;
  }

  /** `_run_transfer`: sends nothing unless every snapshot could be taken. */
  method RunTransfer(source: Store, target: Store, plan: seq<DiskPlan>, snap: string, made: seq<bool>, sent: seq<bool>)
    returns (source': Store, target': Store, ok: bool)
    requires |made| == |sent| == |plan|
    ensures source' == Snapshotted(source, plan, snap, made).0
    ensures Snapshotted(source, plan, snap, made).1 ==>
      var s := SendAll(source', target, plan, snap, sent); target' == s.target && ok == s.ok
    ensures !Snapshotted(source, plan, snap, made).1 ==> target' == target && !ok
  {
    source', ok := SnapshotAll(source, plan, snap, made);
    target' := target;
    if ok {
      target', ok := TransferDisks(source', target, plan, snap, sent);
    }
  }

  lemma {:induction false} FailureStays(source: Store, target: Store, plan: seq<DiskPlan>, snap: string,
                                        works: seq<bool>, i: nat)
    requires |works| == |plan| && i <= |plan| && !SendAll(source, target, plan[..i], snap, works[..i]).ok
    ensures SendAll(source, target, plan, snap, works) == SendAll(source, target, plan[..i], snap, works[..i])
  {
    if i == |plan| {
      assert plan[..i] == plan && works[..i] == works;
    } else {
      var n := |plan| - 1;
      assert plan[..n][..i] == plan[..i] && works[..n][..i] == works[..i];
      FailureStays(source, target, plan[..n], snap, works[..n], i);
    }
  }

  // ------------------------------- nothing is received over an existing dataset

  function Targets(plan: seq<DiskPlan>): set<string> { set p | p in plan :: p.target }

  /** Entry `j` has no base, and its target is there already or taken by an earlier entry. */
  ghost predicate Overwrites(target: Store, plan: seq<DiskPlan>, j: nat) requires j < |plan| {
    plan[j].common.None? && (plan[j].target in target || plan[j].target in Targets(plan[..j]))
  }

  ghost predicate OverwritesBefore(target: Store, plan: seq<DiskPlan>, n: nat) requires n <= |plan| {
    exists j :: 0 <= j < n && Overwrites(target, plan, j)
  }

  /** The targets that are there after a transfer: those before it and those of the entries sent. */
  lemma {:induction false} SentKeys(source: Store, target: Store, plan: seq<DiskPlan>, snap: string, works: seq<bool>)
    requires |works| == |plan|
    ensures var s := SendAll(source, target, plan, snap, works);
            && s.sent <= |plan| && (s.ok <==> s.sent == |plan|)
            && s.target.Keys == target.Keys + Targets(plan[..s.sent])
  {
    if plan != [] {
      var n := |plan| - 1;
      SentKeys(source, target, plan[..n], snap, works[..n]);
      var s := SendAll(source, target, plan[..n], snap, works[..n]);
      assert plan[..n][..s.sent] == plan[..s.sent];
      assert plan == plan[..n] + [plan[n]] && plan[..|plan|] == plan;
      assert Targets(plan) == Targets(plan[..n]) + {plan[n].target};
    }
  }

  lemma OverwritesPrefix(target: Store, plan: seq<DiskPlan>, n: nat, m: nat)
    requires m <= n <= |plan|
    ensures OverwritesBefore(target, plan[..n], m) <==> OverwritesBefore(target, plan, m)
  {
    forall j | 0 <= j < m ensures Overwrites(target, plan[..n], j) <==> Overwrites(target, plan, j) {
      assert plan[..n][..j] == plan[..j];
    }
  }

  /** Whatever target store a plan is sent to and whatever fails, something is received over an
      existing dataset exactly when an entry that was sent has no base and its target was
      there already or is that of an earlier entry. */
  lemma {:induction false} ClobbersIff(source: Store, target: Store, plan: seq<DiskPlan>, snap: string,
                                       works: seq<bool>)
    requires |works| == |plan|
    ensures var s := SendAll(source, target, plan, snap, works);
            s.sent <= |plan| && (s.clobbered <==> OverwritesBefore(target, plan, s.sent))
  {
    if plan != [] {
      var n := |plan| - 1;
      var s := SendAll(source, target, plan[..n], snap, works[..n]);
      ClobbersIff(source, target, plan[..n], snap, works[..n]);
      SentKeys(source, target, plan[..n], snap, works[..n]);
      OverwritesPrefix(target, plan, n, s.sent);
      if s.ok && works[n] && CanSend(source, s.target, plan[n], snap) {
        assert plan[..n][..s.sent] == plan[..n];
        assert Clobbers(s.target, plan[n]) <==> Overwrites(target, plan, n);
      }
    }
  }

  /** The disks whose targets are not there yet all go to different ones. */
  predicate FreshTargetsDiffer(plan: seq<DiskPlan>) {
    forall i, j :: 0 <= i < j < |plan| && !plan[i].exists_ && !plan[j].exists_ ==> plan[i].target != plan[j].target
  }

  /** No target that is there has been taken for absent because its query stayed silent. */
  predicate NoTargetMissed(target: Store, disks: seq<string>, goesTo: string -> string, heard: seq<Heard>)
    requires |heard| == |disks|
  {
    forall i :: 0 <= i < |disks| ==> heard[i].exists_ || goesTo(disks[i]) !in target
  }

  /** In an allowed plan for this store exactly the targets taken for new are without a base. */
  lemma BaseIffExists(source: Store, target: Store, disks: seq<string>, goesTo: string -> string, heard: seq<Heard>,
                      plan: seq<DiskPlan>)
    requires IsPlan(source, target, disks, goesTo, heard, plan) && Allowed(plan)
    ensures forall i :: 0 <= i < |plan| ==> (plan[i].exists_ <==> heard[i].exists_ && plan[i].target in target)
    ensures forall i :: 0 <= i < |plan| ==> (plan[i].exists_ <==> plan[i].common.Some?)
  {
    forall i | 0 <= i < |plan| ensures plan[i].exists_ <==> plan[i].common.Some? {
      assert plan[i] in plan;
    }
  }

  ghost predicate IsShared(plan: seq<DiskPlan>, j: nat) requires j < |plan| {
    exists i :: 0 <= i < j && !plan[i].exists_ && !plan[j].exists_ && plan[i].target == plan[j].target
  }

  lemma OverwritesIsShared(source: Store, target: Store, disks: seq<string>, goesTo: string -> string,
                           heard: seq<Heard>, plan: seq<DiskPlan>, j: nat)
    requires IsPlan(source, target, disks, goesTo, heard, plan) && Allowed(plan) && j < |plan|
    ensures Overwrites(target, plan, j) <==>
            (!heard[j].exists_ && plan[j].target in target) || IsShared(plan, j)
  {
    BaseIffExists(source, target, disks, goesTo, heard, plan);
    if Overwrites(target, plan, j) && plan[j].target !in target {
      var p :| p in plan[..j] && p.target == plan[j].target;
      var i :| 0 <= i < j && plan[i] == p;
    }
    if IsShared(plan, j) {
      var i :| 0 <= i < j && !plan[i].exists_ && !plan[j].exists_ && plan[i].target == plan[j].target;
      assert plan[i] in plan[..j];
    }
  }

  lemma OverwritesIffShared(source: Store, target: Store, disks: seq<string>, goesTo: string -> string,
                            heard: seq<Heard>, plan: seq<DiskPlan>)
    requires IsPlan(source, target, disks, goesTo, heard, plan) && Allowed(plan)
    ensures OverwritesBefore(target, plan, |plan|) <==>
            !FreshTargetsDiffer(plan) || !NoTargetMissed(target, disks, goesTo, heard)
  {
    forall j | 0 <= j < |plan|
      ensures Overwrites(target, plan, j) <==> (!heard[j].exists_ && goesTo(disks[j]) in target) || IsShared(plan, j) {
      OverwritesIsShared(source, target, disks, goesTo, heard, plan, j);
    }
    if !FreshTargetsDiffer(plan) {
      var i, j :| 0 <= i < j < |plan| && !plan[i].exists_ && !plan[j].exists_ && plan[i].target == plan[j].target;
      assert IsShared(plan, j);
    }
  }

  /** The first transfer of a freshly allowed plan, when it reports success, has destroyed
      nothing exactly when the new targets differ and no target was missed by a silent query;
      then nothing is destroyed whatever fails. */
  lemma {:induction false} SafeIffTargetsDiffer(source: Store, target: Store, disks: seq<string>,
                                                goesTo: string -> string, heard: seq<Heard>, plan: seq<DiskPlan>,
                                                sending: Store, snap: string, works: seq<bool>)
    requires IsPlan(source, target, disks, goesTo, heard, plan) && Allowed(plan) && |works| == |plan|
    ensures var s := SendAll(sending, target, plan, snap, works);
            var safe := FreshTargetsDiffer(plan) && NoTargetMissed(target, disks, goesTo, heard);
            (s.ok ==> (!s.clobbered <==> safe)) && (safe ==> !s.clobbered)
  {
    ClobbersIff(sending, target, plan, snap, works);
    SentKeys(sending, target, plan, snap, works);
    OverwritesIffShared(source, target, disks, goesTo, heard, plan);
  }

  /** The existence query for the only disk stays silent: the plan is allowed, and every transfer of
      it that reports success has been received over the target, if that was there. */
  lemma {:induction false} SilenceIsTakenForAbsent(source: Store, target: Store, d: string, goesTo: string -> string,
                                                   heard: seq<Heard>, plan: seq<DiskPlan>, sending: Store, snap: string,
                                                   works: seq<bool>)
    requires IsPlan(source, target, [d], goesTo, heard, plan) && |works| == 1
    requires !heard[0].exists_ && goesTo(d) in target
    ensures Allowed(plan) && FreshTargetsDiffer(plan)
    ensures var s := SendAll(sending, target, plan, snap, works); s.ok ==> s.clobbered
  {
    assert plan == [plan[0]] && [d][0] == d;
    SafeIffTargetsDiffer(source, target, [d], goesTo, heard, plan, sending, snap, works);
  }

  lemma {:induction false} SharedTargetIsClobbered(source: Store, target: Store, disks: seq<string>,
                                                   goesTo: string -> string, heard: seq<Heard>, plan: seq<DiskPlan>,
                                                   i: nat, j: nat, sending: Store, snap: string, works: seq<bool>)
    requires IsPlan(source, target, disks, goesTo, heard, plan) && |works| == |plan|
    requires forall d :: d in disks ==> goesTo(d) !in target
    requires i < j < |disks| && goesTo(disks[i]) == goesTo(disks[j])
    ensures Allowed(plan)
    ensures var s := SendAll(sending, target, plan, snap, works); s.ok ==> s.clobbered
  {
    SafeIffTargetsDiffer(source, target, disks, goesTo, heard, plan, sending, snap, works);
    assert plan[i].target == plan[j].target;
  }

  lemma SameNameSameTarget(root: string, vmid: string, newVmid: string, a: string, b: string)
    requires RecoveryGuest.Basename(a) == RecoveryGuest.Basename(b)
    ensures TargetOf(root, vmid, newVmid)(a) == TargetOf(root, vmid, newVmid)(b)
  {
  }

  /** Two disks of one name on different storages, and no target there yet: the plan is
      allowed, and every transfer of it that reports success has received one over the other. */
  lemma {:induction false} SharedNameIsClobbered(source: Store, target: Store, disks: seq<string>, root: string,
                                                 vmid: string, newVmid: string, heard: seq<Heard>, plan: seq<DiskPlan>,
                                                 i: nat, j: nat, sending: Store, snap: string, works: seq<bool>)
    requires IsPlan(source, target, disks, TargetOf(root, vmid, newVmid), heard, plan) && |works| == |plan|
    requires forall d :: d in disks ==> TargetOf(root, vmid, newVmid)(d) !in target
    requires i < j < |disks| && RecoveryGuest.Basename(disks[i]) == RecoveryGuest.Basename(disks[j])
    ensures Allowed(plan)
    ensures var s := SendAll(sending, target, plan, snap, works); s.ok ==> s.clobbered
  {
    SameNameSameTarget(root, vmid, newVmid, disks[i], disks[j]);
    SharedTargetIsClobbered(source, target, disks, TargetOf(root, vmid, newVmid), heard, plan, i, j, sending, snap,
                            works);
  }

  /** The same plan once more, on what the first transfer left on the target: when it reports
      success, it has received something over an existing dataset exactly when the first
      transfer had sent an entry without a base, or would itself have destroyed something. */
  lemma {:induction false} ReuseClobbersIff(source: Store, target: Store, disks: seq<string>, goesTo: string -> string,
                                            heard: seq<Heard>, plan: seq<DiskPlan>, sending: Store, snap: string,
                                            works: seq<bool>, sending': Store, snap': string, works': seq<bool>)
    requires IsPlan(source, target, disks, goesTo, heard, plan) && Allowed(plan) && |works| == |works'| == |plan|
    requires SendAll(sending', SendAll(sending, target, plan, snap, works).target, plan, snap', works').ok
    ensures var first := SendAll(sending, target, plan, snap, works);
            && first.sent <= |plan|
            && (SendAll(sending', first.target, plan, snap', works').clobbered <==>
                || !FreshTargetsDiffer(plan) || !NoTargetMissed(target, disks, goesTo, heard)
                || exists j :: 0 <= j < first.sent && plan[j].common.None?)
  {
    var first := SendAll(sending, target, plan, snap, works);
    ClobbersIff(sending', first.target, plan, snap', works');
    SentKeys(sending', first.target, plan, snap', works');
    SentKeys(sending, target, plan, snap, works);
    OverwritesIffShared(source, target, disks, goesTo, heard, plan);
    forall j | 0 <= j < |plan|
      ensures Overwrites(first.target, plan, j) <==>
              Overwrites(target, plan, j) || (plan[j].common.None? && plan[j].target in Targets(plan[..first.sent])) {}
    if FreshTargetsDiffer(plan) && NoTargetMissed(target, disks, goesTo, heard) {
      forall j | 0 <= j < |plan| && plan[j].common.None?
        ensures plan[j].target in Targets(plan[..first.sent]) <==> j < first.sent {
        SentTargetIsOwn(source, target, disks, goesTo, heard, plan, first.sent, j);
      }
    }
  }

  lemma SentTargetIsOwn(source: Store, target: Store, disks: seq<string>, goesTo: string -> string,
                        heard: seq<Heard>, plan: seq<DiskPlan>, sent: nat, j: nat)
    requires IsPlan(source, target, disks, goesTo, heard, plan) && Allowed(plan) && FreshTargetsDiffer(plan)
    requires NoTargetMissed(target, disks, goesTo, heard)
    requires j < |plan| && plan[j].common.None? && sent <= |plan|
    ensures plan[j].target in Targets(plan[..sent]) <==> j < sent
  {
    BaseIffExists(source, target, disks, goesTo, heard, plan);
    if j < sent {
      assert plan[j] in plan[..sent];
    } else {
      forall i | 0 <= i < sent ensures plan[i].target != plan[j].target {
        assert !plan[j].exists_ && (plan[i].exists_ <==> heard[i].exists_ && plan[i].target in target);
        assert heard[j].exists_ || goesTo(disks[j]) !in target;
      }
    }
  }

  // --------------------------------------- the next round starts from this one

  lemma {:induction false} SnapshotsAreMade(source: Store, plan: seq<DiskPlan>, snap: string, works: seq<bool>)
    requires |works| == |plan|
    ensures var (s, ok) := Snapshotted(source, plan, snap, works);
            && source.Keys == s.Keys
            && (forall d :: d in source ==> source[d] <= s[d])
            && (ok ==> forall p :: p in plan ==> p.source in s && snap in s[p.source])
  {
    if plan != [] {
      var n := |plan| - 1;
      SnapshotsAreMade(source, plan[..n], snap, works[..n]);
      assert plan == plan[..n] + [plan[n]];
    }
  }

  predicate EndsWith(t: Store, d: string, snap: string) { d in t && t[d] != [] && t[d][|t[d]| - 1] == snap }

  lemma ReceivedEndsWith(t: Store, p: DiskPlan, snap: string)
    requires p.common.Some? ==> p.target in t
    ensures EndsWith(Received(t, p, snap), p.target, snap)
    ensures forall d :: EndsWith(t, d, snap) ==> EndsWith(Received(t, p, snap), d, snap)
  {
  }

  lemma {:induction false} SentEndsWithSnapshot(source: Store, target: Store, plan: seq<DiskPlan>, snap: string,
                                                works: seq<bool>)
    requires |works| == |plan| && SendAll(source, target, plan, snap, works).ok
    ensures var t := SendAll(source, target, plan, snap, works).target;
            forall i :: 0 <= i < |plan| ==> EndsWith(t, plan[i].target, snap)
  {
    if plan != [] {
      var n := |plan| - 1;
      SentEndsWithSnapshot(source, target, plan[..n], snap, works[..n]);
      ReceivedEndsWith(SendAll(source, target, plan[..n], snap, works[..n]).target, plan[n], snap);
      assert forall i :: 0 <= i < n ==> plan[..n][i] == plan[i];
    }
  }

  /** After a successful pre-copy a new preflight is allowed exactly when it hears both snapshot lists
      of every target it hears of, and the base of every disk is exactly the snapshot just sent, as
      far as its queries are answered. */
  lemma {:induction false} NextRoundBuildsOnThis(source: Store, target: Store, disks: seq<string>,
                                                 goesTo: string -> string, heard: seq<Heard>, plan: seq<DiskPlan>,
                                                 snap: string, made: seq<bool>, sent: seq<bool>, heard': seq<Heard>,
                                                 next: seq<DiskPlan>)
    requires IsPlan(source, target, disks, goesTo, heard, plan) && |made| == |sent| == |plan|
    requires var (s, ok) := Snapshotted(source, plan, snap, made); ok && SendAll(s, target, plan, snap, sent).ok
    requires var s := Snapshotted(source, plan, snap, made).0;
             IsPlan(s, SendAll(s, target, plan, snap, sent).target, disks, goesTo, heard', next)
    ensures |next| == |plan|
    ensures Allowed(next) <==> forall i :: 0 <= i < |next| && heard'[i].exists_ ==> heard'[i] == ALL_HEARD
    ensures forall i :: 0 <= i < |next| ==> next[i].target == plan[i].target
    ensures forall i :: 0 <= i < |next| ==>
      next[i].exists_ == heard'[i].exists_ && next[i].common == if heard'[i] == ALL_HEARD then Some(snap) else None
  {
    var s := Snapshotted(source, plan, snap, made).0;
    SnapshotsAreMade(source, plan, snap, made);
    SentEndsWithSnapshot(s, target, plan, snap, sent);
    var t := SendAll(s, target, plan, snap, sent).target;
    forall i | 0 <= i < |next| ensures next[i] == BuiltOn(disks[i], goesTo(disks[i]), heard'[i], snap) {
      assert plan[i] in plan && EndsWith(t, plan[i].target, snap);
      PlanOnSent(s, t, disks[i], goesTo(disks[i]), heard'[i], snap);
    }
    AllowedIff(next, heard', snap);
  }

  /** The plan entry for a disk that has just been sent. */
  function BuiltOn(dataset: string, tds: string, heard: Heard, snap: string): DiskPlan {
    DiskPlan(dataset, tds, heard.exists_, if heard == ALL_HEARD then Some(snap) else None)
  }

  lemma PlanOnSent(source: Store, target: Store, dataset: string, tds: string, heard: Heard, snap: string)
    requires dataset in source && snap in source[dataset] && EndsWith(target, tds, snap)
    ensures PlanFor(source, target, dataset, tds, heard) == BuiltOn(dataset, tds, heard, snap)
  {
  }

  lemma AllowedIff(next: seq<DiskPlan>, heard: seq<Heard>, snap: string)
    requires |next| == |heard|
    requires forall i :: 0 <= i < |next| ==>
      next[i].exists_ == heard[i].exists_ && next[i].common == if heard[i] == ALL_HEARD then Some(snap) else None
    ensures Allowed(next) <==> forall i :: 0 <= i < |next| && heard[i].exists_ ==> heard[i] == ALL_HEARD
  {
    if Allowed(next) {
      forall i | 0 <= i < |next| && heard[i].exists_ ensures heard[i] == ALL_HEARD {
        assert next[i] in next;
      }
    }
  }

  lemma {:induction false} UpToKeeps(snaps: seq<string>, base: string, kept: seq<string>)
    requires base in snaps && kept <= snaps && (kept != [] ==> base !in kept[..|kept| - 1])
    ensures kept <= UpTo(snaps, base)
  {
    var n := |snaps| - 1;
    if snaps[n] != base {
      assert snaps == snaps[..n] + [snaps[n]];
      forall i | 0 <= i < |kept| - 1 ensures snaps[i] != base {
        assert kept[..|kept| - 1][i] == snaps[i];
      }
      UpToKeeps(snaps[..n], base, kept);
    }
  }

  lemma ReceivedKeeps(t: Store, p: DiskPlan, snap: string, d: string, kept: seq<string>)
    requires d in t && kept <= t[d] && (p.common.Some? ==> p.target in t && p.common.value in t[p.target])
    requires p.target == d ==> p.common.Some? && (kept != [] ==> p.common.value !in kept[..|kept| - 1])
    ensures d in Received(t, p, snap) && kept <= Received(t, p, snap)[d]
  {
    if p.target == d {
      UpToKeeps(t[d], p.common.value, kept);
    }
  }

  /** A transfer, whatever fails, loses none of the first snapshots of a target dataset that
      every entry for it goes on from: none before its base and not the base itself. */
  lemma {:induction false} KeptIsNotLost(source: Store, target: Store, plan: seq<DiskPlan>, snap: string,
                                         works: seq<bool>, d: string, kept: seq<string>)
    requires |works| == |plan| && d in target && kept <= target[d]
    requires forall p :: p in plan && p.target == d ==>
               p.common.Some? && (kept != [] ==> p.common.value !in kept[..|kept| - 1])
    ensures var t := SendAll(source, target, plan, snap, works).target; d in t && kept <= t[d]
  {
    if plan != [] {
      var n := |plan| - 1;
      var s := SendAll(source, target, plan[..n], snap, works[..n]);
      KeptIsNotLost(source, target, plan[..n], snap, works[..n], d, kept);
      if s.ok && works[n] && CanSend(source, s.target, plan[n], snap) {
        assert plan[n] in plan;
        ReceivedKeeps(s.target, plan[n], snap, d, kept);
      }
    }
  }
}
