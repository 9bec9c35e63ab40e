/** Re-applying the locally set ZFS properties of a backup: `read_zfs_properties` and
    `apply_zfs_properties` of `app/dr.py`, and the inheritance tree they rebuild. */
module PropertyRestore {
  import opened Text

  datatype Kind = Pool | Dataset

  datatype Key = Key(kind: Kind, name: string, property: string)

  datatype Setting = Setting(key: Key, value: string)

  datatype Row = Row(name: string, property: string, value: string, source: string)

  /** The local settings of a host. */
  type Locals = map<Key, string>

  // ------------------------------------------------------------- reading a backup

  const SKIP_DATASET: set<string> := {"volblocksize", "volsize", "casesensitivity", "normalization", "utf8only",
                                      "encryption", "keyformat", "keylocation", "pbkdf2iters"}

  const SKIP_POOL: set<string> := {"ashift", "version"}

  predicate IsPropChar(c: char) {
    'a' <= c <= 'z' || 'A' <= c <= 'Z' || IsDigit(c) || c == '_' || c == ':' || c == '.' || c == '-'
  }

  /** `^[a-z][a-zA-Z0-9_:.-]*$` */
  predicate IsPropName(s: string) { s != [] && IsLower(s[0]) && forall i :: 0 <= i < |s| ==> IsPropChar(s[i]) }

  lemma PropNameIff(s: string)
    ensures IsPropName(s) <==>
      && s != [] && 97 <= s[0] as int <= 122
      && forall i :: 0 <= i < |s| ==>
           48 <= s[i] as int <= 57 || 65 <= s[i] as int <= 90 || 97 <= s[i] as int <= 122
           || s[i] == '_' || s[i] == ':' || s[i] == '.' || s[i] == '-'
  {
  }

  function RowOf(line: string): Option<Row> {
    var parts := Split(line, '\t');
    if |parts| >= 4 then Some(Row(parts[0], parts[1], parts[2], parts[3])) else None
  }

  /** A property that a restore sets again. */
  predicate IsRestored(kind: Kind, property: string) {
    && IsPropName(property)
    && (if kind.Pool? then property !in SKIP_POOL && !("feature@" <= property) else property !in SKIP_DATASET)
  }

  /** Never set again are what can only be chosen at creation, key material, and the features and geometry of a
      pool. */
  lemma RestoredIff(property: string)
    requires IsPropName(property)
    ensures IsRestored(Dataset, property) <==>
            property !in ["volblocksize", "volsize", "casesensitivity", "normalization", "utf8only", "encryption",
                          "keyformat", "keylocation", "pbkdf2iters"]
    ensures IsRestored(Pool, property) <==>
            property != "ashift" && property != "version" && !exists f :: property == "feature@" + f
  {
    if "feature@" <= property {
      assert property == "feature@" + property[8..];
    }
  }

  function SettingReader(kind: Kind): string -> Option<Setting> {
    (line: string) =>
      match RowOf(line)
      case None => None
      case Some(r) =>
        var setting := Setting(Key(kind, r.name, r.property), r.value);
        if r.source == "local" && IsRestored(kind, r.property) then Some(setting) else None
  }

  /** The settings to apply again, pools first. */
  function Plan(poolLines: seq<string>, datasetLines: seq<string>): seq<Setting> {
    Collect(SettingReader(Pool), poolLines) + Collect(SettingReader(Dataset), datasetLines)
  }

  method ReadRows(kind: Kind, lines: seq<string>) returns (out: seq<Setting>)
    ensures out == Collect(SettingReader(kind), lines)
  {
    out := [];
    for i := 0 to |lines|
      invariant out == Collect(SettingReader(kind), lines[..i])
    {
      CollectNext(SettingReader(kind), lines, i);
      out := out + Maybe(SettingReader(kind)(lines[i]));
    }
    assert lines[..|lines|] == lines;
  }

  /** `read_zfs_properties` */
  method ReadProperties(poolLines: seq<string>, datasetLines: seq<string>) returns (plan: seq<Setting>)
    ensures plan == Plan(poolLines, datasetLines)
  {
    var pools := ReadRows(Pool, poolLines);
    var datasets := ReadRows(Dataset, datasetLines);
    plan := pools + datasets;
  }

  // ------------------------------------------------------------------ applying

  datatype Object = Object(kind: Kind, name: string)

  function ObjectOf(s: Setting): Object { Object(s.key.kind, s.key.name) }

  /** One `zpool set` or `zfs set` per setting of an object that exists; a failing one stops nothing. */
  function Applied(locals: Locals, existing: set<Object>, plan: seq<Setting>, works: seq<bool>): Locals
    requires |works| == |plan|
  {
    if plan == [] then locals
    else
      var n := |plan| - 1;
      var m := Applied(locals, existing, plan[..n], works[..n]);
      if ObjectOf(plan[n]) in existing && works[n] then m[plan[n].key := plan[n].value] else m
  }

  /** The places before `n` of which `p` holds. */
  ghost function Places(p: nat -> bool, n: nat): set<nat> { set i: nat | i < n && p(i) }

  lemma PlacesNext(p: nat -> bool, n: nat)
    ensures Places(p, n + 1) == if p(n) then Places(p, n) + {n} else Places(p, n)
    ensures |Places(p, n + 1)| == |Places(p, n)| + if p(n) then 1 else 0
  {
  }

  /** The setting at this place is of an existing object of that kind, and its command works. */
  function SetAt(kind: Kind, existing: set<Object>, plan: seq<Setting>, works: seq<bool>): nat -> bool
    requires |works| == |plan|
  {
    (i: nat) => i < |plan| && plan[i].key.kind == kind && ObjectOf(plan[i]) in existing && works[i]
  }

  function FailedAt(existing: set<Object>, plan: seq<Setting>, works: seq<bool>): nat -> bool
    requires |works| == |plan|
  {
    (i: nat) => i < |plan| && ObjectOf(plan[i]) in existing && !works[i]
  }

  ghost predicate IsAbsent(n: string, existing: set<Object>, plan: seq<Setting>) {
    exists s :: s in plan && s.key.name == n && ObjectOf(s) !in existing
  }

  lemma {:induction false} AppliedNext(locals: Locals, existing: set<Object>, plan: seq<Setting>, works: seq<bool>,
                                       i: nat)
    requires |works| == |plan| && i < |plan|
    ensures var m := Applied(locals, existing, plan[..i], works[..i]);
            Applied(locals, existing, plan[..i + 1], works[..i + 1])
            == if ObjectOf(plan[i]) in existing && works[i] then m[plan[i].key := plan[i].value] else m
  {
    assert plan[..i + 1][..i] == plan[..i] && works[..i + 1][..i] == works[..i];
  }

  lemma AbsentNext(existing: set<Object>, plan: seq<Setting>, i: nat)
    requires i < |plan|
    ensures forall n :: IsAbsent(n, existing, plan[..i + 1]) <==>
                        IsAbsent(n, existing, plan[..i]) || (plan[i].key.name == n && ObjectOf(plan[i]) !in existing)
  {
    assert plan[..i + 1] == plan[..i] + [plan[i]];
    forall n ensures IsAbsent(n, existing, plan[..i + 1]) <==>
                     IsAbsent(n, existing, plan[..i]) || (plan[i].key.name == n && ObjectOf(plan[i]) !in existing) {
      AbsentOne(existing, plan[..i], plan[i], n);
    }
  }

  lemma AbsentOne(existing: set<Object>, plan: seq<Setting>, s: Setting, n: string)
    ensures IsAbsent(n, existing, plan + [s]) <==>
            IsAbsent(n, existing, plan) || (s.key.name == n && ObjectOf(s) !in existing)
  {
    if s.key.name == n && ObjectOf(s) !in existing {
      assert s in plan + [s];
    }
    if IsAbsent(n, existing, plan) {
      var x :| x in plan && x.key.name == n && ObjectOf(x) !in existing;
      assert x in plan + [s];
    }
  }

  function One(b: bool): nat { if b then 1 else 0 }

  /** What one more setting adds to the three counts. */
  lemma CountsNext(existing: set<Object>, plan: seq<Setting>, works: seq<bool>, i: nat)
    requires |works| == |plan| && i < |plan|
    ensures var present := ObjectOf(plan[i]) in existing;
            && SetCount(Pool, existing, plan, works, i + 1)
               == SetCount(Pool, existing, plan, works, i) + One(present && works[i] && plan[i].key.kind == Pool)
            && SetCount(Dataset, existing, plan, works, i + 1)
               == SetCount(Dataset, existing, plan, works, i) + One(present && works[i] && plan[i].key.kind == Dataset)
            && FailedCount(existing, plan, works, i + 1)
               == FailedCount(existing, plan, works, i) + One(present && !works[i])
  {
    PlacesNext(SetAt(Pool, existing, plan, works), i);
    PlacesNext(SetAt(Dataset, existing, plan, works), i);
    PlacesNext(FailedAt(existing, plan, works), i);
  }

  /** How many of the first `n` settings are of existing objects of this kind, and their commands work. */
  ghost function SetCount(kind: Kind, existing: set<Object>, plan: seq<Setting>, works: seq<bool>, n: nat): nat
    requires |works| == |plan|
  {
    |Places(SetAt(kind, existing, plan, works), n)|
  }

  /** How many of the first `n` settings are of existing objects, and their commands fail. */
  ghost function FailedCount(existing: set<Object>, plan: seq<Setting>, works: seq<bool>, n: nat): nat
    requires |works| == |plan|
  {
    |Places(FailedAt(existing, plan, works), n)|
  }

  /** `apply_zfs_properties`, with what it reports. */
  method ApplyProperties(locals: Locals, existing: set<Object>, plan: seq<Setting>, works: seq<bool>)
    returns (locals': Locals, poolsSet: nat, datasetsSet: nat, failed: nat, absent: set<string>)
    requires |works| == |plan|
    ensures locals' == Applied(locals, existing, plan, works)
    ensures poolsSet == SetCount(Pool, existing, plan, works, |plan|)
    ensures datasetsSet == SetCount(Dataset, existing, plan, works, |plan|)
    ensures failed == FailedCount(existing, plan, works, |plan|)
    ensures forall n :: n in absent <==> IsAbsent(n, existing, plan)
  {
    locals', poolsSet, datasetsSet, failed, absent := locals, 0, 0, 0, {};
    for i := 0 to |plan|
      invariant locals' == Applied(locals, existing, plan[..i], works[..i])
      invariant poolsSet == SetCount(Pool, existing, plan, works, i)
      invariant datasetsSet == SetCount(Dataset, existing, plan, works, i)
      invariant failed == FailedCount(existing, plan, works, i)
      invariant forall n :: n in absent <==> IsAbsent(n, existing, plan[..i])
    {
      AppliedNext(locals, existing, plan, works, i);
      CountsNext(existing, plan, works, i);
      AbsentNext(existing, plan, i);
      if ObjectOf(plan[i]) !in existing {
        absent := absent + {plan[i].key.name};
      } else if !works[i] {
        failed := failed + 1;
      } else {
        locals' := locals'[plan[i].key := plan[i].value];
        if plan[i].key.kind == Pool {
          poolsSet := poolsSet + 1;
        } else {
          datasetsSet := datasetsSet + 1;
        }
      }
    }
    assert plan[..|plan|] == plan && works[..|plan|] == works;
  }

  function Works(answers: nat -> bool, n: nat): (works: seq<bool>) ensures |works| == n {
    seq(n, i requires 0 <= i < n => answers(i))
  }

  /** `apply_zfs_properties` on a backup. The commands run as one batch; when its output does not
      arrive, nothing is counted, neither as set nor as failed. */
  method ApplyBackup(locals: Locals, existing: set<Object>, poolLines: seq<string>, datasetLines: seq<string>,
                     answers: nat -> bool, heard: bool)
    returns (locals': Locals, success: bool, poolsSet: nat, datasetsSet: nat, absent: set<string>)
    ensures var plan := Plan(poolLines, datasetLines);
            var works := Works(answers, |plan|);
            && locals' == Applied(locals, existing, plan, works)
            && (success <==> !heard || FailedCount(existing, plan, works, |plan|) == 0)
            && poolsSet == (if heard then SetCount(Pool, existing, plan, works, |plan|) else 0)
            && datasetsSet == (if heard then SetCount(Dataset, existing, plan, works, |plan|) else 0)
            && forall n :: n in absent <==> IsAbsent(n, existing, plan)
  {
    var plan := ReadProperties(poolLines, datasetLines);
    var failed;
    locals', poolsSet, datasetsSet, failed, absent := ApplyProperties(locals, existing, plan, Works(answers, |plan|));
    if !heard {
      poolsSet, datasetsSet, failed := 0, 0, 0;
    }
    success := failed == 0;
  }

  // ------------------------------------------------------------- inheritance

  function LastSlash(name: string): (i: nat)
    ensures i <= |name|
    ensures i < |name| ==> name[i] == '/'
  {
    if name == [] then 0
    else
      var n := |name| - 1;
      if name[n] == '/' then n
      else
        var i := LastSlash(name[..n]);
        if i == n then |name| else i
  }

  predicate IsPoolRoot(name: string) { LastSlash(name) == |name| }

  function Parent(name: string): string
    requires !IsPoolRoot(name)
  {
    name[..LastSlash(name)]
  }

  /** The value a dataset has: its own setting, else its parent's value, else the default. */
  function Effective(locals: Locals, default: string -> string, name: string, property: string): string
    decreases |name|
  {
    if Key(Dataset, name, property) in locals then locals[Key(Dataset, name, property)]
    else if IsPoolRoot(name) then default(property)
    else Effective(locals, default, Parent(name), property)
  }

  /** The lines say of every dataset property whether it is set locally, and to what. */
  ghost predicate Captures(lines: seq<string>, locals: Locals) {
    && (forall l :: l in lines ==> IsTrue(l, locals))
    && forall k :: k in locals && k.kind.Dataset? ==> IsListed(lines, k, locals[k])
  }

  ghost predicate IsTrue(line: string, locals: Locals) {
    RowOf(line).Some? && RowOf(line).value.source == "local" ==>
      var r := RowOf(line).value;
      Key(Dataset, r.name, r.property) in locals && locals[Key(Dataset, r.name, r.property)] == r.value
  }

  ghost predicate IsListed(lines: seq<string>, k: Key, value: string) {
    exists l :: l in lines && RowOf(l) == Some(Row(k.name, k.property, value, "local"))
  }

  /** The plan in any order: every captured setting of a dataset, perhaps several times, and any pool settings. */
  ghost predicate Reorders(plan: seq<Setting>, lines: seq<string>) {
    forall s: Setting :: s.key.kind.Dataset? ==> (s in plan <==> s in Collect(SettingReader(Dataset), lines))
  }

  ghost predicate AllSet(plan: seq<Setting>, existing: set<Object>, works: seq<bool>) {
    |works| == |plan| && forall i :: 0 <= i < |plan| ==> ObjectOf(plan[i]) in existing && works[i]
  }

  lemma {:induction false} CapturedSetting(lines: seq<string>, locals: Locals, s: Setting)
    requires Captures(lines, locals) && s.key.kind.Dataset?
    ensures s in Collect(SettingReader(Dataset), lines) <==>
            IsRestored(Dataset, s.key.property) && s.key in locals && locals[s.key] == s.value
  {
    CollectMember(SettingReader(Dataset), lines, s);
    if IsRestored(Dataset, s.key.property) && s.key in locals && locals[s.key] == s.value {
      assert IsListed(lines, s.key, locals[s.key]);
      var l :| l in lines && RowOf(l) == Some(Row(s.key.name, s.key.property, s.value, "local"));
      var i :| 0 <= i < |lines| && lines[i] == l;
      assert SettingReader(Dataset)(lines[i]) == Some(s);
    }
    if s in Collect(SettingReader(Dataset), lines) {
      var i :| 0 <= i < |lines| && SettingReader(Dataset)(lines[i]) == Some(s);
      assert IsTrue(lines[i], locals);
    }
  }

  ghost predicate IsPlanned(plan: seq<Setting>, k: Key) { exists s :: s in plan && s.key == k }

  lemma PlannedNext(plan: seq<Setting>, n: nat, k: Key)
    requires |plan| == n + 1
    ensures IsPlanned(plan, k) <==> IsPlanned(plan[..n], k) || plan[n].key == k
  {
    assert plan == plan[..n] + [plan[n]];
    if IsPlanned(plan[..n], k) {
      var s :| s in plan[..n] && s.key == k;
      assert s in plan;
    }
    if plan[n].key == k {
      assert plan[n] in plan;
    }
  }

  /** What a plan of true settings leaves at one key. */
  lemma {:induction false} AppliedAt(target: Locals, source: Locals, existing: set<Object>, plan: seq<Setting>,
                                     works: seq<bool>, k: Key)
    requires AllSet(plan, existing, works)
    requires forall s :: s in plan && s.key == k ==> k in source && source[k] == s.value
    ensures var m := Applied(target, existing, plan, works);
            if IsPlanned(plan, k) then k in m && m[k] == source[k]
            else (k in m <==> k in target) && (k in m ==> m[k] == target[k])
  {
    if plan != [] {
      var n := |plan| - 1;
      AppliedAt(target, source, existing, plan[..n], works[..n], k);
      PlannedNext(plan, n, k);
      assert plan[n] in plan;
    }
  }

  /** A host after a restore has the backup's setting wherever the backup had one, and its own elsewhere. */
  ghost predicate Restored(after: Locals, target: Locals, source: Locals, property: string) {
    forall n :: var k := Key(Dataset, n, property);
      if k in source then k in after && after[k] == source[k]
      else (k in after <==> k in target) && (k in after ==> after[k] == target[k])
  }

  lemma {:induction false} ApplyingRestores(target: Locals, source: Locals, lines: seq<string>, existing: set<Object>,
                                            plan: seq<Setting>, works: seq<bool>, property: string)
    requires Captures(lines, source) && Reorders(plan, lines) && AllSet(plan, existing, works)
    requires IsRestored(Dataset, property)
    ensures Restored(Applied(target, existing, plan, works), target, source, property)
  {
    var after := Applied(target, existing, plan, works);
    forall n
      ensures var k := Key(Dataset, n, property);
        if k in source then k in after && after[k] == source[k]
        else (k in after <==> k in target) && (k in after ==> after[k] == target[k])
    {
      var k := Key(Dataset, n, property);
      forall s | s in plan && s.key == k ensures k in source && source[k] == s.value {
        CapturedSetting(lines, source, s);
      }
      if k in source {
        var s := Setting(k, source[k]);
        CapturedSetting(lines, source, s);
        assert s in plan && s.key == k && IsPlanned(plan, k);
      }
      AppliedAt(target, source, existing, plan, works, k);
    }
  }

  /** The target's own settings that the backup does not have say what the backup's tree says there. */
  ghost predicate OwnSettingsAgree(target: Locals, source: Locals, default: string -> string, property: string) {
    forall n :: OwnSettingAgrees(target, source, default, property, n)
  }

  ghost predicate OwnSettingAgrees(target: Locals, source: Locals, default: string -> string, property: string,
                                   n: string) {
    var k := Key(Dataset, n, property);
    k in target && k !in source ==> target[k] == Effective(source, default, n, property)
  }

  lemma {:induction false} SameEffect(after: Locals, target: Locals, source: Locals, default: string -> string,
                                      property: string, n: string)
    requires Restored(after, target, source, property) && OwnSettingsAgree(target, source, default, property)
    ensures Effective(after, default, n, property) == Effective(source, default, n, property)
    decreases |n|
  {
    var k := Key(Dataset, n, property);
    assert OwnSettingAgrees(target, source, default, property, n);
    if k !in after && !IsPoolRoot(n) {
      SameEffect(after, target, source, default, property, Parent(n));
    }
  }

  ghost predicate SameAt(a: Locals, b: Locals, default: string -> string, property: string, n: string) {
    Effective(a, default, n, property) == Effective(b, default, n, property)
  }

  /** Every dataset name has the same effective value in both. */
  ghost predicate SameTree(a: Locals, b: Locals, default: string -> string, property: string) {
    forall n :: SameAt(a, b, default, property, n)
  }

  /** Re-applying the local settings, in whatever order, gives every dataset its old
      effective value of an inheritable property exactly when the target's own
      settings of it, where the backup has none, agree with the old values. */
  lemma {:induction false} RebuildsTreeIff(target: Locals, source: Locals, lines: seq<string>, existing: set<Object>,
                                           plan: seq<Setting>, works: seq<bool>, default: string -> string,
                                           property: string)
    requires Captures(lines, source) && Reorders(plan, lines) && AllSet(plan, existing, works)
    requires IsRestored(Dataset, property)
    ensures SameTree(Applied(target, existing, plan, works), source, default, property)
            <==> OwnSettingsAgree(target, source, default, property)
  {
    var after := Applied(target, existing, plan, works);
    ApplyingRestores(target, source, lines, existing, plan, works, property);
    if OwnSettingsAgree(target, source, default, property) {
      forall n ensures SameAt(after, source, default, property, n) {
        SameEffect(after, target, source, default, property, n);
      }
    }
    if SameTree(after, source, default, property) {
      forall n ensures OwnSettingAgrees(target, source, default, property, n) {
        assert SameAt(after, source, default, property, n);
      }
    }
  }

  /** No failure and no absent name: every setting has been made. */
  lemma AllSetIffReported(plan: seq<Setting>, existing: set<Object>, works: seq<bool>)
    requires |works| == |plan|
    ensures AllSet(plan, existing, works) <==>
            FailedCount(existing, plan, works, |plan|) == 0 && forall n :: !IsAbsent(n, existing, plan)
  {
    var failed := Places(FailedAt(existing, plan, works), |plan|);
    if failed == {} && forall n :: !IsAbsent(n, existing, plan) {
      forall i | 0 <= i < |plan| ensures ObjectOf(plan[i]) in existing && works[i] {
        assert plan[i] in plan && !IsAbsent(plan[i].key.name, existing, plan);
        assert i !in failed;
      }
    }
    if i :| i in failed {
      assert !works[i];
    }
  }

  /** A restore whose output arrives, that reports success and no absent name, gives every dataset its old
      effective value of an inheritable property exactly when the target's own settings agree with them. */
  lemma {:induction false} ReportedRestoreIff(target: Locals, source: Locals, poolLines: seq<string>,
                                              lines: seq<string>, existing: set<Object>, works: seq<bool>,
                                              default: string -> string, property: string)
    requires Captures(lines, source) && IsRestored(Dataset, property) && |works| == |Plan(poolLines, lines)|
    requires FailedCount(existing, Plan(poolLines, lines), works, |works|) == 0
    requires forall n :: !IsAbsent(n, existing, Plan(poolLines, lines))
    ensures SameTree(Applied(target, existing, Plan(poolLines, lines), works), source, default, property)
            <==> OwnSettingsAgree(target, source, default, property)
  {
    AllSetIffReported(Plan(poolLines, lines), existing, works);
    PlanReorders(poolLines, lines);
    RebuildsTreeIff(target, source, lines, existing, Plan(poolLines, lines), works, default, property);
  }

  /** On datasets without local settings of their own the whole tree comes back. */
  lemma {:induction false} FreshTargetGetsTree(target: Locals, source: Locals, lines: seq<string>,
                                               existing: set<Object>, plan: seq<Setting>, works: seq<bool>,
                                               default: string -> string, property: string, n: string)
    requires Captures(lines, source) && Reorders(plan, lines) && AllSet(plan, existing, works)
    requires IsRestored(Dataset, property) && forall k :: k in target ==> !k.kind.Dataset?
    ensures Effective(Applied(target, existing, plan, works), default, n, property) ==
            Effective(source, default, n, property)
  {
    RebuildsTreeIff(target, source, lines, existing, plan, works, default, property);
    assert SameTree(Applied(target, existing, plan, works), source, default, property) ==>
      SameAt(Applied(target, existing, plan, works), source, default, property, n);
  }

  /** The plan as it is read is one such order. */
  lemma PlanReorders(poolLines: seq<string>, lines: seq<string>)
    ensures Reorders(Plan(poolLines, lines), lines)
  {
    forall s: Setting | s.key.kind.Dataset? ensures s !in Collect(SettingReader(Pool), poolLines) {
      CollectMember(SettingReader(Pool), poolLines, s);
    }
  }

  /** A captured line gives back its row, as long as no field holds a tab. */
  lemma RowRoundTrip(r: Row)
    requires '\t' !in r.name && '\t' !in r.property && '\t' !in r.value && '\t' !in r.source
    ensures RowOf(r.name + ['\t'] + (r.property + ['\t'] + (r.value + ['\t'] + r.source))) == Some(r)
  {
    SplitNone(r.source, '\t');
    SplitCons(r.value, r.source, '\t');
    SplitCons(r.property, r.value + ['\t'] + r.source, '\t');
    SplitCons(r.name, r.property + ['\t'] + (r.value + ['\t'] + r.source), '\t');
  }
}
