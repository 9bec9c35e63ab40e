/** What clearing away the migration snapshots leaves for a later migration to build on:
    `cleanup_migration_snapshots` of `app/migrate.py`. A listing may stay silent and a destroy may fail. */
module MigrationCleanup {
  import opened Sorting
  import opened Text
  import opened MigrationPlan
  import opened Lineages
  import opened Calendar
  import opened BackupNames
  import RecoveryGuest

  datatype Left = Left(dataset: string, snapshot: string)

  // ------------------------------------------------------------- the listing

  function Leftover(dataset: string): string -> Option<Left> {
    (s: string) => if IsMigration(s) then Some(Left(dataset, s)) else None
  }

  /** The migration snapshots of one dataset; none of one with an unusual name. */
  function LeftoversOf(store: Store, dataset: string): seq<Left> {
    if RecoveryGuest.IsDatasetName(dataset) && dataset in store then Collect(Leftover(dataset), store[dataset]) else []
  }

  function Leftovers(store: Store, datasets: seq<string>): seq<Left> {
    if datasets == [] then []
    else
      var n := |datasets| - 1;
      Leftovers(store, datasets[..n]) + LeftoversOf(store, datasets[n])
  }

  /** The datasets whose listing is answered. */
  function Answering(datasets: seq<string>, heard: seq<bool>): seq<string>
    requires |heard| == |datasets|
  {
    if datasets == [] then []
    else
      var n := |datasets| - 1;
      Answering(datasets[..n], heard[..n]) + if heard[n] then [datasets[n]] else []
  }

  lemma {:induction false} LeftoversConcat(store: Store, datasets: seq<string>, d: string)
    ensures Leftovers(store, datasets + [d]) == Leftovers(store, datasets) + LeftoversOf(store, d)
  {
    assert (datasets + [d])[..|datasets|] == datasets;
  }

  lemma AnsweringNext(datasets: seq<string>, heard: seq<bool>, i: nat)
    requires |heard| == |datasets| && i < |datasets|
    ensures Answering(datasets[..i + 1], heard[..i + 1])
         == Answering(datasets[..i], heard[..i]) + if heard[i] then [datasets[i]] else []
  {
    assert datasets[..i + 1][..i] == datasets[..i] && heard[..i + 1][..i] == heard[..i];
  }

  /** `list_migration_snapshots`: a silent listing reads as an empty one. */
  method ListMigrationSnapshots(store: Store, datasets: seq<string>, heard: seq<bool>) returns (out: seq<Left>)
    requires |heard| == |datasets|
    ensures out == Leftovers(store, Answering(datasets, heard))
  {
    out := [];
    for i := 0 to |datasets|
      invariant out == Leftovers(store, Answering(datasets[..i], heard[..i]))
    {
      AnsweringNext(datasets, heard, i);
      LeftoversConcat(store, Answering(datasets[..i], heard[..i]), datasets[i]);
      assert !heard[i] ==> Answering(datasets[..i + 1], heard[..i + 1]) == Answering(datasets[..i], heard[..i]);
      if heard[i] && RecoveryGuest.IsDatasetName(datasets[i]) && datasets[i] in store {
        var more := ListOne(datasets[i], store[datasets[i]]);
        out := out + more;
      }
    }
    assert datasets[..|datasets|] == datasets && heard[..|heard|] == heard;
  }

  /** A listing of the dataset is asked for and answered. */
  ghost predicate Seen(datasets: seq<string>, heard: seq<bool>, d: string) requires |heard| == |datasets| {
    RecoveryGuest.IsDatasetName(d) && exists i :: 0 <= i < |datasets| && datasets[i] == d && heard[i]
  }

  lemma {:induction false} SeenIsAnswering(datasets: seq<string>, heard: seq<bool>, d: string)
    requires |heard| == |datasets|
    ensures Seen(datasets, heard, d) <==> RecoveryGuest.IsDatasetName(d) && d in Answering(datasets, heard)
  {
    if datasets != [] {
      var n := |datasets| - 1;
      SeenIsAnswering(datasets[..n], heard[..n], d);
      if Seen(datasets, heard, d) {
        var i :| 0 <= i < |datasets| && datasets[i] == d && heard[i];
        assert i < n ==> datasets[..n][i] == d && heard[..n][i];
      }
      if Seen(datasets[..n], heard[..n], d) {
        var i :| 0 <= i < n && datasets[..n][i] == d && heard[..n][i];
        assert datasets[i] == d && heard[i];
      }
    }
  }

  method ListOne(dataset: string, snaps: seq<string>) returns (out: seq<Left>)
    ensures out == Collect(Leftover(dataset), snaps)
  {
    out := [];
    for k := 0 to |snaps|
      invariant out == Collect(Leftover(dataset), snaps[..k])
    {
      CollectNext(Leftover(dataset), snaps, k);
      if IsMigration(snaps[k]) {
        out := out + [Left(dataset, snaps[k])];
      }
    }
    assert snaps[..|snaps|] == snaps;
  }

  predicate IsListed(store: Store, datasets: seq<string>, x: Left) {
    && x.dataset in datasets && RecoveryGuest.IsDatasetName(x.dataset)
    && x.dataset in store && x.snapshot in store[x.dataset] && IsMigration(x.snapshot)
  }

  lemma LeftoversOfMember(store: Store, dataset: string, x: Left)
    ensures x in LeftoversOf(store, dataset) <==> x.dataset == dataset && IsListed(store, [dataset], x)
  {
    if RecoveryGuest.IsDatasetName(dataset) && dataset in store {
      CollectMember(Leftover(dataset), store[dataset], x);
    }
  }

  lemma {:induction false} LeftoversMember(store: Store, datasets: seq<string>, x: Left)
    ensures x in Leftovers(store, datasets) <==> IsListed(store, datasets, x)
  {
    if datasets != [] {
      var n := |datasets| - 1;
      LeftoversMember(store, datasets[..n], x);
      LeftoversOfMember(store, datasets[n], x);
      assert datasets == datasets[..n] + [datasets[n]];
    }
  }

  // ----------------------------------------------------------- the selection

  predicate Newer(a: string, b: string) { !StringLe(a, b) }

  predicate IsNewest(snaps: seq<Left>, x: Left) {
    forall y :: y in snaps && y.dataset == x.dataset ==> !Newer(y.snapshot, x.snapshot)
  }

  function Spared(snaps: seq<Left>): Left -> Option<Left> {
    (x: Left) => if IsNewest(snaps, x) then None else Some(x)
  }

  ghost predicate HoldsNewest(newest: map<string, Left>, snaps: seq<Left>) {
    && (forall d :: d in newest ==> newest[d] in snaps && newest[d].dataset == d && IsNewest(snaps, newest[d]))
    && forall x :: x in snaps ==> x.dataset in newest
  }

  lemma NewerOrders(a: string, b: string, c: string)
    ensures !Newer(a, a) && (Newer(a, b) ==> !Newer(b, a)) && (!Newer(a, b) && !Newer(b, a) ==> a == b)
    ensures !Newer(a, b) && !Newer(b, c) ==> !Newer(a, c)
    ensures Newer(a, b) && !Newer(c, b) ==> !Newer(c, a)
  {
    StringLeTotal(a, b);
    StringLeTotal(a, a);
    if StringLe(a, b) && StringLe(b, a) {
      StringLeAntisymmetric(a, b);
    }
    if StringLe(a, b) && StringLe(b, c) {
      StringLeTransitive(a, b, c);
    }
    if StringLe(c, b) && StringLe(b, a) {
      StringLeTransitive(c, b, a);
    }
  }

  function WithNewer(newest: map<string, Left>, x: Left): map<string, Left> {
    if x.dataset !in newest || Newer(x.snapshot, newest[x.dataset].snapshot) then newest[x.dataset := x] else newest
  }

  lemma OneMoreNewest(newest: map<string, Left>, snaps: seq<Left>, x: Left)
    requires HoldsNewest(newest, snaps)
    ensures HoldsNewest(WithNewer(newest, x), snaps + [x])
  {
    var more := WithNewer(newest, x);
    forall d, y | d in more && y in snaps + [x] && y.dataset == d ensures !Newer(y.snapshot, more[d].snapshot) {
      NewerOrders(x.snapshot, x.snapshot, x.snapshot);
      if d in newest && d == x.dataset {
        NewerOrders(x.snapshot, newest[d].snapshot, y.snapshot);
      }
    }
  }

  /** `select_snapshots_to_delete`: all of them, or all but the newest of each dataset. */
  method SelectToDelete(snaps: seq<Left>, keepLatest: bool) returns (out: seq<Left>)
    ensures out == if keepLatest then Collect(Spared(snaps), snaps) else snaps
  {
    if !keepLatest {
      return snaps;
    }
    var newest: map<string, Left> := map[];
    for i := 0 to |snaps|
      invariant HoldsNewest(newest, snaps[..i])
    {
      OneMoreNewest(newest, snaps[..i], snaps[i]);
      assert snaps[..i + 1] == snaps[..i] + [snaps[i]];
      if snaps[i].dataset !in newest || Newer(snaps[i].snapshot, newest[snaps[i].dataset].snapshot) {
        newest := newest[snaps[i].dataset := snaps[i]];
      }
    }
    assert snaps[..|snaps|] == snaps;
    out := [];
    for i := 0 to |snaps|
      invariant out == Collect(Spared(snaps), snaps[..i])
    {
      CollectNext(Spared(snaps), snaps, i);
      KeptIsNewest(newest, snaps, snaps[i]);
      if snaps[i] !in newest.Values {
        out := out + [snaps[i]];
      }
    }
  }

  lemma KeptIsNewest(newest: map<string, Left>, snaps: seq<Left>, x: Left)
    requires HoldsNewest(newest, snaps) && x in snaps
    ensures x in newest.Values <==> IsNewest(snaps, x)
  {
    var d := x.dataset;
    if x in newest.Values {
      var e :| e in newest && newest[e] == x;
    }
    if IsNewest(snaps, x) {
      NewerOrders(x.snapshot, newest[d].snapshot, x.snapshot);
      assert newest[d] in newest.Values;
    }
  }

  /** What is spared of a dataset is exactly one label. */
  lemma {:induction false} OneLabelIsSpared(snaps: seq<Left>, x: Left, y: Left)
    requires x in snaps && y in snaps && x.dataset == y.dataset
    requires x !in Collect(Spared(snaps), snaps) && y !in Collect(Spared(snaps), snaps)
    ensures x == y
  {
    CollectMember(Spared(snaps), snaps, x);
    CollectMember(Spared(snaps), snaps, y);
    var i :| 0 <= i < |snaps| && snaps[i] == x;
    var j :| 0 <= j < |snaps| && snaps[j] == y;
    assert Spared(snaps)(snaps[i]).None? && Spared(snaps)(snaps[j]).None?;
    NewerOrders(x.snapshot, y.snapshot, x.snapshot);
  }

  // ----------------------------------------------------------- the destroys

  function Filter(p: string -> bool, snaps: seq<string>): seq<string> {
    if snaps == [] then []
    else
      var n := |snaps| - 1;
      Filter(p, snaps[..n]) + if p(snaps[n]) then [snaps[n]] else []
  }

  lemma {:induction false} FilterMember(p: string -> bool, snaps: seq<string>, x: string)
    ensures x in Filter(p, snaps) <==> x in snaps && p(x)
  {
    if snaps != [] {
      var n := |snaps| - 1;
      FilterMember(p, snaps[..n], x);
      assert snaps == snaps[..n] + [snaps[n]];
    }
  }

  lemma {:induction false} FilterTwice(p: string -> bool, q: string -> bool, r: string -> bool, snaps: seq<string>)
    requires forall s :: s in snaps ==> (r(s) <==> p(s) && q(s))
    ensures Filter(q, Filter(p, snaps)) == Filter(r, snaps)
  {
    if snaps != [] {
      var n := |snaps| - 1;
      FilterTwice(p, q, r, snaps[..n]);
      assert snaps[n] in snaps;
      if p(snaps[n]) {
        var kept := Filter(p, snaps);
        assert kept[..|kept| - 1] == Filter(p, snaps[..n]);
      } else {
        assert Filter(p, snaps) == Filter(p, snaps[..n]);
      }
    }
  }

  lemma {:induction false} FilterNone(p: string -> bool, snaps: seq<string>)
    requires forall s :: s in snaps ==> p(s)
    ensures Filter(p, snaps) == snaps
  {
    if snaps != [] {
      var n := |snaps| - 1;
      assert snaps == snaps[..n] + [snaps[n]];
      assert p(snaps[n]) && forall s :: s in snaps[..n] ==> s in snaps;
      FilterNone(p, snaps[..n]);
    }
  }

  lemma {:induction false} FilterSame(p: string -> bool, q: string -> bool, snaps: seq<string>)
    requires forall s :: s in snaps ==> (p(s) <==> q(s))
    ensures Filter(p, snaps) == Filter(q, snaps)
  {
    if snaps != [] {
      var n := |snaps| - 1;
      assert snaps[n] in snaps;
      FilterSame(p, q, snaps[..n]);
    }
  }

  function Not(x: string): string -> bool { s => s != x }

  /** `zfs destroy` of the listed snapshots, one after the other; a failure does not keep the next
      from being tried. */
  function DestroyAll(store: Store, todo: seq<Left>, works: seq<bool>): (Store, bool)
    requires |works| == |todo|
  {
    if todo == [] then (store, true)
    else
      var n := |todo| - 1;
      var (s, ok) := DestroyAll(store, todo[..n], works[..n]);
      var x := todo[n];
      if works[n] && x.dataset in s && x.snapshot in s[x.dataset] then
        (s[x.dataset := Filter(Not(x.snapshot), s[x.dataset])], ok)
      else (s, false)
  }

  method DestroyEach(store: Store, todo: seq<Left>, works: seq<bool>) returns (store': Store, ok: bool)
    requires |works| == |todo|
    ensures (store', ok) == DestroyAll(store, todo, works)
  {
    store', ok := store, true;
    for i := 0 to |todo|
      invariant (store', ok) == DestroyAll(store, todo[..i], works[..i])
    {
      assert todo[..i + 1][..i] == todo[..i] && works[..i + 1][..i] == works[..i];
      var x := todo[i];
      if works[i] && x.dataset in store' && x.snapshot in store'[x.dataset] {
        store' := store'[x.dataset := Filter(Not(x.snapshot), store'[x.dataset])];
      } else {
        ok := false;
      }
    }
    assert todo[..|todo|] == todo && works[..|todo|] == works;
  }

  /** The snapshots whose destroy command works. */
  ghost function Gone(todo: seq<Left>, works: seq<bool>): set<Left> requires |works| == |todo| {
    set i | 0 <= i < |todo| && works[i] :: todo[i]
  }

  function Survives(gone: set<Left>, dataset: string): string -> bool { s => Left(dataset, s) !in gone }

  ghost predicate HasLost(store: Store, gone: set<Left>, store': Store) {
    store'.Keys == store.Keys && forall d :: d in store ==> store'[d] == Filter(Survives(gone, d), store[d])
  }

  /** The test of what stays of dataset `d` when `x` goes. */
  function OtherThan(x: Left, d: string): string -> bool { s => d == x.dataset ==> s != x.snapshot }

  lemma LosingOne(store: Store, gone: set<Left>, s: Store, x: Left, d: string)
    requires HasLost(store, gone, s) && d in store
    ensures Filter(OtherThan(x, d), s[d]) == Filter(Survives(gone + {x}, d), store[d])
  {
    FilterTwice(Survives(gone, d), OtherThan(x, d), Survives(gone + {x}, d), store[d]);
  }

  /** Losing one more snapshot; one that is not there is lost already. */
  lemma HasLostOne(store: Store, gone: set<Left>, s: Store, x: Left, s': Store)
    requires HasLost(store, gone, s) && s'.Keys == s.Keys
    requires forall d :: d in s ==> s'[d] == if d == x.dataset then Filter(OtherThan(x, d), s[d]) else s[d]
    ensures HasLost(store, gone + {x}, s')
  {
    forall d | d in store ensures s'[d] == Filter(Survives(gone + {x}, d), store[d]) {
      LosingOne(store, gone, s, x, d);
      if d != x.dataset {
        FilterNone(OtherThan(x, d), s[d]);
      }
    }
  }

  /** Exactly the snapshots whose destroy command works are lost, all others stay in order. */
  lemma {:induction false} DestroyedIsLost(store: Store, todo: seq<Left>, works: seq<bool>)
    requires |works| == |todo|
    ensures var (s, ok) := DestroyAll(store, todo, works); HasLost(store, Gone(todo, works), s)
  {
    if todo == [] {
      forall d | d in store ensures store[d] == Filter(Survives({}, d), store[d]) {
        FilterNone(Survives({}, d), store[d]);
      }
      assert Gone(todo, works) == {};
    } else {
      var n := |todo| - 1;
      DestroyedIsLost(store, todo[..n], works[..n]);
      var before, after := DestroyAll(store, todo[..n], works[..n]).0, DestroyAll(store, todo, works).0;
      GoneNext(todo, works);
      if works[n] {
        DestroyedOne(before, todo[n], after);
        HasLostOne(store, Gone(todo[..n], works[..n]), before, todo[n], after);
      }
    }
  }

  lemma DestroyedOne(before: Store, x: Left, after: Store)
    requires after == if x.dataset in before && x.snapshot in before[x.dataset]
                      then before[x.dataset := Filter(Not(x.snapshot), before[x.dataset])] else before
    ensures after.Keys == before.Keys
    ensures forall d :: d in before ==>
              after[d] == if d == x.dataset then Filter(OtherThan(x, d), before[d]) else before[d]
  {
    if x.dataset in before {
      FilterSame(Not(x.snapshot), OtherThan(x, x.dataset), before[x.dataset]);
      if x.snapshot !in before[x.dataset] {
        FilterNone(OtherThan(x, x.dataset), before[x.dataset]);
      }
    }
  }

  lemma GoneNext(todo: seq<Left>, works: seq<bool>)
    requires |works| == |todo| > 0
    ensures var n := |todo| - 1; var gone := Gone(todo[..n], works[..n]);
            Gone(todo, works) == if works[n] then gone + {todo[n]} else gone
  {
  }

  /** When every destroy is reported to have worked, all that was listed is gone. */
  lemma {:induction false} AllAreGone(store: Store, todo: seq<Left>, works: seq<bool>)
    requires |works| == |todo| && DestroyAll(store, todo, works).1
    ensures forall x :: x in Gone(todo, works) <==> x in todo
  {
    if todo != [] {
      var n := |todo| - 1;
      AllAreGone(store, todo[..n], works[..n]);
      GoneNext(todo, works);
      assert todo == todo[..n] + [todo[n]];
    }
  }

  // ------------------------------------------------------------ the whole cleanup

  function Sources(plan: seq<DiskPlan>): seq<string> { seq(|plan|, i requires 0 <= i < |plan| => plan[i].source) }

  function TargetsOf(plan: seq<DiskPlan>): seq<string> { seq(|plan|, i requires 0 <= i < |plan| => plan[i].target) }

  /** Which listings are answered, and, command by command, which destroys work: those on the source
      come first. */
  datatype Answers = Answers(ofSource: seq<bool>, ofTarget: seq<bool>, destroys: nat -> bool)

  predicate Fit(answers: Answers, plan: seq<DiskPlan>) { |answers.ofSource| == |answers.ofTarget| == |plan| }

  ghost predicate SourceSeen(plan: seq<DiskPlan>, answers: Answers, d: string) requires Fit(answers, plan) {
    Seen(Sources(plan), answers.ofSource, d)
  }

  ghost predicate TargetSeen(plan: seq<DiskPlan>, answers: Answers, t: string) requires Fit(answers, plan) {
    Seen(TargetsOf(plan), answers.ofTarget, t)
  }

  function FromSource(source: Store, plan: seq<DiskPlan>, answers: Answers): seq<Left> requires Fit(answers, plan) {
    Leftovers(source, Answering(Sources(plan), answers.ofSource))
  }

  function FromTarget(target: Store, plan: seq<DiskPlan>, keepLatest: bool, answers: Answers): seq<Left>
    requires Fit(answers, plan)
  {
    var all := Leftovers(target, Answering(TargetsOf(plan), answers.ofTarget));
    if keepLatest then Collect(Spared(all), all) else all
  }

  function Part(answers: nat -> bool, from: nat, n: nat): (part: seq<bool>) ensures |part| == n {
    seq(n, i requires 0 <= i < n => answers(from + i))
  }

  ghost predicate IsCleared(source: Store, target: Store, plan: seq<DiskPlan>, keepLatest: bool, answers: Answers,
                            source': Store, target': Store, ok: bool) {
    && Fit(answers, plan)
    && var fromS, fromT := FromSource(source, plan, answers), FromTarget(target, plan, keepLatest, answers);
    var (s, okS) := DestroyAll(source, fromS, Part(answers.destroys, 0, |fromS|));
    var (t, okT) := DestroyAll(target, fromT, Part(answers.destroys, |fromS|, |fromT|));
    source' == s && target' == t && (ok <==> okS && okT)
  }

  /** `cleanup_migration_snapshots`. It refuses while a migration is `busy`. */
  method Cleanup(source: Store, target: Store, plan: seq<DiskPlan>, keepLatest: bool, busy: bool, answers: Answers)
    returns (source': Store, target': Store, ok: bool)
    requires Fit(answers, plan)
    ensures busy ==> source' == source && target' == target && !ok
    ensures !busy ==> IsCleared(source, target, plan, keepLatest, answers, source', target', ok)
  {
    if busy {
      return source, target, false;
    }
    var ofSource := ListMigrationSnapshots(source, Sources(plan), answers.ofSource);
    var ofTarget := ListMigrationSnapshots(target, TargetsOf(plan), answers.ofTarget);
    var fromS := SelectToDelete(ofSource, false);
    var fromT := SelectToDelete(ofTarget, keepLatest);
    var okT;
    source', ok := DestroyEach(source, fromS, Part(answers.destroys, 0, |fromS|));
    target', okT := DestroyEach(target, fromT, Part(answers.destroys, |fromS|, |fromT|));
    ok := ok && okT;
  }

  /** The snapshots the cleanup destroys on the source, and on the target. */
  ghost function GoneFromSource(source: Store, plan: seq<DiskPlan>, answers: Answers): set<Left>
    requires Fit(answers, plan)
  {
    var fromS := FromSource(source, plan, answers);
    Gone(fromS, Part(answers.destroys, 0, |fromS|))
  }

  ghost function GoneFromTarget(source: Store, target: Store, plan: seq<DiskPlan>, keepLatest: bool,
                                answers: Answers): set<Left>
    requires Fit(answers, plan)
  {
    var n, fromT := |FromSource(source, plan, answers)|, FromTarget(target, plan, keepLatest, answers);
    Gone(fromT, Part(answers.destroys, n, |fromT|))
  }

  lemma ClearedHasLost(source: Store, target: Store, plan: seq<DiskPlan>, keepLatest: bool, answers: Answers,
                       source': Store, target': Store, ok: bool)
    requires IsCleared(source, target, plan, keepLatest, answers, source', target', ok)
    ensures HasLost(source, GoneFromSource(source, plan, answers), source')
    ensures HasLost(target, GoneFromTarget(source, target, plan, keepLatest, answers), target')
  {
    var fromS, fromT := FromSource(source, plan, answers), FromTarget(target, plan, keepLatest, answers);
    DestroyedIsLost(source, fromS, Part(answers.destroys, 0, |fromS|));
    DestroyedIsLost(target, fromT, Part(answers.destroys, |fromS|, |fromT|));
  }

  // ---------------------------------------- what a later migration can build on

  function SharedAfter(snaps: seq<string>, p: string -> bool, q: string -> bool): string -> bool {
    s => s in snaps && p(s) && q(s)
  }

  lemma {:induction false} NewestOfFiltered(a: string -> bool, q: string -> bool, c: string -> bool,
                                            target: seq<string>)
    requires forall s :: s in target ==> (c(s) <==> a(s) && q(s))
    ensures Newest(a, Filter(q, target)) == Newest(c, target)
  {
    if target != [] {
      var n := |target| - 1;
      NewestOfFiltered(a, q, c, target[..n]);
      assert target[n] in target;
      if q(target[n]) {
        var kept := Filter(q, target);
        assert kept[..|kept| - 1] == Filter(q, target[..n]);
      } else {
        assert Filter(q, target) == Filter(q, target[..n]);
      }
    }
  }

  lemma {:induction false} CommonOfFiltered(source: seq<string>, p: string -> bool, target: seq<string>,
                                            q: string -> bool)
    ensures Common(Filter(p, source), Filter(q, target)) == Newest(SharedAfter(source, p, q), target)
  {
    forall s | s in target ensures s in Filter(p, source) <==> s in source && p(s) {
      FilterMember(p, source, s);
    }
    NewestOfFiltered(s => s in Filter(p, source), q, SharedAfter(source, p, q), target);
  }

  /** What preflight finds for a disk after a cleanup, whichever listings and destroys have failed: the
      newest snapshot both sides had and neither side has lost. */
  lemma BaseAfterCleanup(source: Store, target: Store, plan: seq<DiskPlan>, keepLatest: bool, answers: Answers,
                         source': Store, target': Store, ok: bool, d: string, t: string, heard: Heard)
    requires IsCleared(source, target, plan, keepLatest, answers, source', target', ok)
    ensures PlanFor(source', target', d, t, heard).exists_ <==> heard.exists_ && t in target
    ensures PlanFor(source', target', d, t, heard).common ==
      if heard == ALL_HEARD && t in target && d in source then
        Newest(SharedAfter(source[d], Survives(GoneFromSource(source, plan, answers), d),
                           Survives(GoneFromTarget(source, target, plan, keepLatest, answers), t)), target[t])
      else None
  {
    ClearedHasLost(source, target, plan, keepLatest, answers, source', target', ok);
    if t in target && d in source {
      CommonOfFiltered(source[d], Survives(GoneFromSource(source, plan, answers), d),
                       target[t], Survives(GoneFromTarget(source, target, plan, keepLatest, answers), t));
    }
  }

  lemma {:induction false} SparedIsNewest(all: seq<Left>, x: Left)
    ensures x in Collect(Spared(all), all) <==> x in all && !IsNewest(all, x)
  {
    CollectMember(Spared(all), all, x);
    if i :| 0 <= i < |all| && Spared(all)(all[i]) == Some(x) {
      assert all[i] == x;
    }
    if x in all && !IsNewest(all, x) {
      var i :| 0 <= i < |all| && all[i] == x;
      assert Spared(all)(all[i]) == Some(x);
    }
  }

  /** `s` is the newest migration snapshot of the list. */
  predicate IsLatestMigration(snaps: seq<string>, s: string) {
    forall u :: u in snaps && IsMigration(u) ==> !Newer(u, s)
  }

  lemma ListedFromTarget(target: Store, plan: seq<DiskPlan>, keepLatest: bool, answers: Answers, t: string, s: string)
    requires Fit(answers, plan)
    ensures Left(t, s) in FromTarget(target, plan, keepLatest, answers) <==>
            && IsListed(target, Answering(TargetsOf(plan), answers.ofTarget), Left(t, s))
            && !(keepLatest && IsLatestMigration(target[t], s))
  {
    var datasets := Answering(TargetsOf(plan), answers.ofTarget);
    var all := Leftovers(target, datasets);
    LeftoversMember(target, datasets, Left(t, s));
    if keepLatest && IsListed(target, datasets, Left(t, s)) {
      SparedIsNewest(all, Left(t, s));
      forall u ensures Left(t, u) in all <==> u in target[t] && IsMigration(u) {
        LeftoversMember(target, datasets, Left(t, u));
      }
      NewestIsLatest(all, target[t], t, s);
    } else if keepLatest {
      SparedIsNewest(all, Left(t, s));
    }
  }

  lemma NewestIsLatest(all: seq<Left>, snaps: seq<string>, t: string, s: string)
    requires forall u :: Left(t, u) in all <==> u in snaps && IsMigration(u)
    ensures IsNewest(all, Left(t, s)) <==> IsLatestMigration(snaps, s)
  {
    if !IsNewest(all, Left(t, s)) {
      var y :| y in all && y.dataset == t && Newer(y.snapshot, s);
      assert y == Left(t, y.snapshot);
    }
    if !IsLatestMigration(snaps, s) {
      var u :| u in snaps && IsMigration(u) && Newer(u, s);
      assert Left(t, u) in all;
    }
  }

  // ------------------------------------------------- the names of the snapshots

  /** `make_snapshot_name` */
  function MigrationName(c: Stamp): string {
    "migrate-" + (Padded(DateDigits(c), 8) + (['-'] + Padded(TimeDigits(c), 6)))
  }

  /** `migrate-`, eight digits, a dash and six digits; and perhaps a line feed. */
  ghost predicate IsSpelledMigration(s: string) {
    exists d, t :: |d| == 8 && |t| == 6 && AllDigits(d) && AllDigits(t) && IsSpelledWith(s, d, t)
  }

  predicate IsSpelledWith(s: string, d: string, t: string) {
    s == "migrate-" + (d + (['-'] + t)) || s == "migrate-" + (d + (['-'] + t)) + ['\n']
  }

  lemma MigrationIsSpelled(s: string)
    ensures IsMigration(s) <==> IsSpelledMigration(s)
  {
    if IsMigration(s) {
      var u := if |s| == 24 && s[23] == '\n' then s[..23] else s;
      assert u == u[..8] + (u[8..16] + ([u[16]] + u[17..]));
      assert IsSpelledWith(s, u[8..16], u[17..]);
    }
    if IsSpelledMigration(s) {
      var d, t :| |d| == 8 && |t| == 6 && AllDigits(d) && AllDigits(t) && IsSpelledWith(s, d, t);
      SpelledIsMigration(s, d, t);
    }
  }

  lemma SpelledIsMigration(s: string, d: string, t: string)
    requires |d| == 8 && |t| == 6 && AllDigits(d) && AllDigits(t) && IsSpelledWith(s, d, t)
    ensures IsMigration(s)
  {
    var u := "migrate-" + (d + (['-'] + t));
    assert u[..8] == "migrate-" && u[8..16] == d && u[16] == '-' && u[17..] == t;
    if s != u {
      assert s[..23] == u && s[23] == '\n';
    }
  }

  /** The names a migration gives are recognised, and sort by the time they were given: "lexicographic is
      chronological". */
  lemma NamesAreChronological(a: Stamp, b: Stamp)
    ensures IsMigration(MigrationName(a))
    ensures Newer(MigrationName(a), MigrationName(b)) <==> Seconds(a) > Seconds(b)
  {
    SpelledIsMigration(MigrationName(a), Padded(DateDigits(a), 8), Padded(TimeDigits(a), 6));
    DigitsFit(a);
    DigitsFit(b);
    MigrationOrder(DateDigits(a), TimeDigits(a), DateDigits(b), TimeDigits(b));
    DigitsOrderTime(b, a);
  }

  lemma {:induction false} MigrationOrder(d: nat, t: nat, d': nat, t': nat)
    requires d < Power(8) && d' < Power(8) && t < Power(6) && t' < Power(6)
    ensures StringLe("migrate-" + (Padded(d, 8) + (['-'] + Padded(t, 6))),
                     "migrate-" + (Padded(d', 8) + (['-'] + Padded(t', 6))))
            <==> d < d' || (d == d' && t <= t')
  {
    CommonPrefix("migrate-", Padded(d, 8) + (['-'] + Padded(t, 6)), Padded(d', 8) + (['-'] + Padded(t', 6)));
    PaddedOrder(d, d', 8, ['-'] + Padded(t, 6), ['-'] + Padded(t', 6));
    CommonPrefix(['-'], Padded(t, 6), Padded(t', 6));
    PaddedOrder(t, t', 6, [], []);
    assert Padded(t, 6) + [] == Padded(t, 6) && Padded(t', 6) + [] == Padded(t', 6);
  }

  /** What a cleanup that reports success destroys on the target, if it sees it. */
  predicate Doomed(snaps: seq<string>, keepLatest: bool, s: string) {
    IsMigration(s) && !(keepLatest && IsLatestMigration(snaps, s))
  }

  /** A cleanup that reports success takes from the source every migration snapshot of each dataset it
      has seen, and from the target all or all but the newest of each; every other snapshot stays,
      and so does every migration snapshot of a dataset whose listing stayed silent. */
  lemma SuccessfulCleanup(source: Store, target: Store, plan: seq<DiskPlan>, keepLatest: bool, answers: Answers,
                          source': Store, target': Store, d: string, s: string)
    requires IsCleared(source, target, plan, keepLatest, answers, source', target', true)
    ensures d in source ==>
      d in source' && (s in source'[d] <==> s in source[d] && !(SourceSeen(plan, answers, d) && IsMigration(s)))
    ensures d in target ==>
      d in target' &&
      (s in target'[d] <==> s in target[d] && !(TargetSeen(plan, answers, d) && Doomed(target[d], keepLatest, s)))
  {
    ClearedHasLost(source, target, plan, keepLatest, answers, source', target', true);
    SuccessGone(source, target, plan, keepLatest, answers, source', target', d, s);
    if d in source {
      FilterMember(Survives(GoneFromSource(source, plan, answers), d), source[d], s);
    }
    if d in target {
      FilterMember(Survives(GoneFromTarget(source, target, plan, keepLatest, answers), d), target[d], s);
    }
  }

  lemma SuccessGone(source: Store, target: Store, plan: seq<DiskPlan>, keepLatest: bool, answers: Answers,
                    source': Store, target': Store, d: string, s: string)
    requires IsCleared(source, target, plan, keepLatest, answers, source', target', true)
    ensures Left(d, s) in GoneFromSource(source, plan, answers) <==>
            SourceSeen(plan, answers, d) && d in source && s in source[d] && IsMigration(s)
    ensures Left(d, s) in GoneFromTarget(source, target, plan, keepLatest, answers) <==>
            TargetSeen(plan, answers, d) && d in target && s in target[d] && Doomed(target[d], keepLatest, s)
  {
    var fromS, fromT := FromSource(source, plan, answers), FromTarget(target, plan, keepLatest, answers);
    AllAreGone(source, fromS, Part(answers.destroys, 0, |fromS|));
    AllAreGone(target, fromT, Part(answers.destroys, |fromS|, |fromT|));
    LeftoversMember(source, Answering(Sources(plan), answers.ofSource), Left(d, s));
    ListedFromTarget(target, plan, keepLatest, answers, d, s);
    SeenIsAnswering(Sources(plan), answers.ofSource, d);
    SeenIsAnswering(TargetsOf(plan), answers.ofTarget, d);
  }

  /** What is left in common after a success: the shared snapshots no migration made, and those
      that neither side has destroyed. */
  ghost predicate IsLeft(source: seq<string>, target: seq<string>, sourceSeen: bool, targetSeen: bool, keepLatest: bool,
                         s: string) {
    && s in source && s in target
    && !(sourceSeen && IsMigration(s)) && !(targetSeen && Doomed(target, keepLatest, s))
  }

  lemma {:induction false} NewestSame(p: string -> bool, q: string -> bool, snaps: seq<string>)
    requires forall s :: s in snaps ==> (p(s) <==> q(s))
    ensures Newest(p, snaps) == Newest(q, snaps)
  {
    if snaps != [] {
      assert snaps[|snaps| - 1] in snaps;
      NewestSame(p, q, snaps[..|snaps| - 1]);
    }
  }

  /** After a cleanup that reports success, a preflight that is answered finds for any two datasets the
      newest snapshot that is left in common, on the way there as on the way back. */
  lemma BaseAfterSuccess(source: Store, target: Store, plan: seq<DiskPlan>, keepLatest: bool, answers: Answers,
                         source': Store, target': Store, d: string, t: string)
    requires IsCleared(source, target, plan, keepLatest, answers, source', target', true)
    requires d in source && t in target
    ensures PlanFor(source', target', d, t, ALL_HEARD).common ==
            Newest(InCommon(source, target, plan, keepLatest, answers, d, t), target[t])
    ensures PlanFor(target', source', t, d, ALL_HEARD).common ==
            Newest(InCommon(source, target, plan, keepLatest, answers, d, t), source[d])
  {
    ClearedHasLost(source, target, plan, keepLatest, answers, source', target', true);
    var p := Survives(GoneFromSource(source, plan, answers), d);
    var q := Survives(GoneFromTarget(source, target, plan, keepLatest, answers), t);
    var left := InCommon(source, target, plan, keepLatest, answers, d, t);
    CommonOfFiltered(source[d], p, target[t], q);
    CommonOfFiltered(target[t], q, source[d], p);
    forall s ensures left(s) <==> s in source[d] && s in target[t] && p(s) && q(s) {
      SuccessGone(source, target, plan, keepLatest, answers, source', target', d, s);
      SuccessGone(source, target, plan, keepLatest, answers, source', target', t, s);
    }
    NewestSame(SharedAfter(source[d], p, q), left, target[t]);
    NewestSame(SharedAfter(target[t], q, p), left, source[d]);
  }

  ghost function InCommon(source: Store, target: Store, plan: seq<DiskPlan>, keepLatest: bool, answers: Answers,
                          d: string, t: string): string -> bool
    requires Fit(answers, plan) && d in source && t in target
  {
    var sourceSeen, targetSeen := SourceSeen(plan, answers, d), TargetSeen(plan, answers, t);
    s => IsLeft(source[d], target[t], sourceSeen, targetSeen, keepLatest, s)
  }

  /** After a cleanup that reports success a migration snapshot is left in common exactly when no listing
      on the source was answered and the target keeps it. Otherwise the one spared on the target is no
      base, there or back: a base is found exactly when a shared snapshot was made by no migration. */
  lemma CleanupLeavesNoMigrationBase(source: Store, target: Store, plan: seq<DiskPlan>, keepLatest: bool,
                                     answers: Answers, source': Store, target': Store, d: string, t: string)
    requires IsCleared(source, target, plan, keepLatest, answers, source', target', true)
    requires d in source && t in target
    ensures (exists s :: IsMigration(s) && InCommon(source, target, plan, keepLatest, answers, d, t)(s)) <==>
            && !SourceSeen(plan, answers, d)
            && exists s :: s in source[d] && s in target[t] && IsMigration(s)
                        && StaysOnTarget(target, plan, keepLatest, answers, t, s)
    ensures var back := PlanFor(target', source', t, d, ALL_HEARD).common;
            var there := PlanFor(source', target', d, t, ALL_HEARD).common;
            SourceSeen(plan, answers, d) ==>
              && (there.Some? ==> !IsMigration(there.value)) && (back.Some? ==> !IsMigration(back.value))
              && (there.Some? <==> exists s :: s in source[d] && s in target[t] && !IsMigration(s))
              && (back.Some? <==> there.Some?)
  {
    var left := InCommon(source, target, plan, keepLatest, answers, d, t);
    BaseAfterSuccess(source, target, plan, keepLatest, answers, source', target', d, t);
    NewestIsLast(left, target[t]);
    NewestIsLast(left, source[d]);
    forall s ensures left(s) <==>
      && s in source[d] && s in target[t]
      && (IsMigration(s) ==>
            !SourceSeen(plan, answers, d) && StaysOnTarget(target, plan, keepLatest, answers, t, s)) {
      MigrationLeft(source, target, plan, keepLatest, answers, d, t, s);
    }
  }

  /** A migration snapshot that the target keeps: not seen, or spared. */
  ghost predicate StaysOnTarget(target: Store, plan: seq<DiskPlan>, keepLatest: bool, answers: Answers, t: string,
                                s: string)
    requires Fit(answers, plan) && t in target
  {
    TargetSeen(plan, answers, t) ==> keepLatest && IsLatestMigration(target[t], s)
  }

  lemma MigrationLeft(source: Store, target: Store, plan: seq<DiskPlan>, keepLatest: bool, answers: Answers,
                      d: string, t: string, s: string)
    requires Fit(answers, plan) && d in source && t in target
    ensures InCommon(source, target, plan, keepLatest, answers, d, t)(s) <==>
            && s in source[d] && s in target[t]
            && (IsMigration(s) ==>
                  !SourceSeen(plan, answers, d) && StaysOnTarget(target, plan, keepLatest, answers, t, s))
  {
  }

  lemma {:induction false} NothingAnswered(datasets: seq<string>, heard: seq<bool>)
    requires |heard| == |datasets| && forall i :: 0 <= i < |heard| ==> !heard[i]
    ensures Answering(datasets, heard) == []
  {
    if datasets != [] {
      NothingAnswered(datasets[..|datasets| - 1], heard[..|datasets| - 1]);
    }
  }

  /** A cleanup none of whose listings is answered destroys nothing and reports success: whatever
      migration snapshot was the base before is the base afterwards. */
  lemma SilentCleanup(source: Store, target: Store, plan: seq<DiskPlan>, keepLatest: bool, answers: Answers,
                      source': Store, target': Store, ok: bool, d: string, t: string, heard: Heard)
    requires IsCleared(source, target, plan, keepLatest, answers, source', target', ok)
    requires forall i :: 0 <= i < |plan| ==> !answers.ofSource[i] && !answers.ofTarget[i]
    ensures ok && source' == source && target' == target
    ensures PlanFor(source', target', d, t, heard) == PlanFor(source, target, d, t, heard)
  {
    NothingAnswered(Sources(plan), answers.ofSource);
    NothingAnswered(TargetsOf(plan), answers.ofTarget);
  }
}
