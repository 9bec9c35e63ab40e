/** Which datasets are one guest disk and its copies: `app/replication_inventory.py`.

    Snapshot rows of all hosts arrive as one list in iteration order, each row
    tagged with its host. */
module Lineages {
  import opened Grouping
  import opened Sorting
  import opened Text

  datatype Row = Row(dataset: string, snapshot: string, guid: string, creation: int)
  datatype Place = Place(host: string, row: Row)
  datatype Key = Key(host: string, dataset: string)

  datatype Copy = Copy(host: string, dataset: string, snapshotCount: nat, oldest: Option<int>,
                       newest: Option<int>, guids: set<string>, newestSnapshot: string)
  datatype Lineage = Lineage(copies: seq<Copy>)

  function KeyOf(p: Place): Key { Key(p.host, p.row.dataset) }

  function GuidOf(p: Place): string { p.row.guid }

  function CopyKey(c: Copy): Key { Key(c.host, c.dataset) }

  /** `^migrate-\d{8}-\d{6}$`; a `$` also matches before one final line feed. */
  predicate IsMigration(name: string) {
    var s := if |name| == 24 && name[23] == '\n' then name[..23] else name;
    |s| == 23 && s[..8] == "migrate-" && AllDigits(s[8..16]) && s[16] == '-' && AllDigits(s[17..])
  }

  // ---------------------------------------------------------------- the graph

  /** A guid is evidence unless one of its places is a migration snapshot. */
  ghost predicate Evidence(places: seq<Place>, guid: string) {
    forall p :: p in places && p.row.guid == guid ==> !IsMigration(p.row.snapshot)
  }

  ghost predicate Linked(places: seq<Place>, a: Key, b: Key) {
    exists p, q :: p in places && q in places && KeyOf(p) == a && KeyOf(q) == b
                && p.row.guid == q.row.guid && Evidence(places, p.row.guid)
  }

  ghost predicate Chain(places: seq<Place>, path: seq<Key>, a: Key, b: Key) {
    && path != [] && path[0] == a && path[|path| - 1] == b
    && forall i :: 0 <= i < |path| - 1 ==> Linked(places, path[i], path[i + 1])
  }

  ghost predicate Connected(places: seq<Place>, a: Key, b: Key) {
    exists path :: Chain(places, path, a, b)
  }

  lemma ConnectedReflexive(places: seq<Place>, a: Key)
    ensures Connected(places, a, a)
  {
    assert Chain(places, [a], a, a);
  }

  lemma LinkedConnects(places: seq<Place>, a: Key, b: Key)
    requires Linked(places, a, b)
    ensures Connected(places, a, b)
  {
    assert Chain(places, [a, b], a, b);
  }

  lemma ConnectedTransitive(places: seq<Place>, a: Key, b: Key, c: Key)
    requires Connected(places, a, b) && Connected(places, b, c)
    ensures Connected(places, a, c)
  {
    var left :| Chain(places, left, a, b);
    var right :| Chain(places, right, b, c);
    var path := left + right[1..];
    forall i | 0 <= i < |path| - 1 ensures Linked(places, path[i], path[i + 1]) {
      if i < |left| - 1 {
        assert path[i] == left[i] && path[i + 1] == left[i + 1];
      } else {
        var j := i - (|left| - 1);
        assert path[i] == right[j] && path[i + 1] == right[j + 1];
      }
    }
    assert Chain(places, path, a, c);
  }

  lemma ConnectedSymmetric(places: seq<Place>, a: Key, b: Key)
    requires Connected(places, a, b)
    ensures Connected(places, b, a)
  {
    var path :| Chain(places, path, a, b);
    var n := |path|;
    var back := seq(n, i requires 0 <= i < n => path[n - 1 - i]);
    forall i | 0 <= i < n - 1 ensures Linked(places, back[i], back[i + 1]) {
      assert Linked(places, path[n - 2 - i], path[n - 2 - i + 1]);
    }
    assert Chain(places, back, b, a);
  }

  ghost predicate LinksAgree(places: seq<Place>, root: map<Key, Key>) {
    forall a, b :: Linked(places, a, b) ==> a in root && b in root && root[a] == root[b]
  }

  /** A labelling that agrees along every link agrees along every chain. */
  lemma {:induction false} LabelsAgree(places: seq<Place>, root: map<Key, Key>, path: seq<Key>, a: Key, b: Key)
    requires LinksAgree(places, root) && a in root && Chain(places, path, a, b)
    ensures b in root && root[a] == root[b]
    decreases |path|
  {
    if |path| > 1 {
      assert Linked(places, path[0], path[0 + 1]);
      var rest := path[1..];
      forall i | 0 <= i < |rest| - 1 ensures Linked(places, rest[i], rest[i + 1]) {
        assert Linked(places, path[i + 1], path[i + 1 + 1]);
      }
      assert Chain(places, rest, path[1], b);
      LabelsAgree(places, root, rest, path[1], b);
    }
  }

  // ------------------------------------------------------- the mutable forest

  /** `root[k]` is the answer `find(k)` must give, `depth` a measure that falls along every parent link. */
  ghost predicate NodeOk(parent: map<Key, Key>, root: map<Key, Key>, depth: map<Key, nat>, k: Key)
    requires root.Keys == parent.Keys && depth.Keys == parent.Keys && k in parent
  {
    && parent[k] in parent && root[k] in parent
    && root[parent[k]] == root[k] && parent[root[k]] == root[k]
    && (if parent[k] == k then root[k] == k else depth[parent[k]] < depth[k])
  }

  ghost predicate IsForest(parent: map<Key, Key>, root: map<Key, Key>, depth: map<Key, nat>) {
    && root.Keys == parent.Keys && depth.Keys == parent.Keys
    && forall k {:trigger NodeOk(parent, root, depth, k)} :: k in parent ==> NodeOk(parent, root, depth, k)
  }

  lemma AddingKeepsForest(parent: map<Key, Key>, root: map<Key, Key>, depth: map<Key, nat>, key: Key)
    requires IsForest(parent, root, depth) && key !in parent
    ensures IsForest(parent[key := key], root[key := key], depth[key := 0])
  {
    forall k | k in parent ensures NodeOk(parent[key := key], root[key := key], depth[key := 0], k) {
      assert NodeOk(parent, root, depth, k);
    }
  }

  lemma HalvingKeepsForest(parent: map<Key, Key>, root: map<Key, Key>, depth: map<Key, nat>, k: Key)
    requires IsForest(parent, root, depth) && k in parent && parent[k] != k
    ensures parent[k] in parent && IsForest(parent[k := parent[parent[k]]], root, depth)
    ensures parent[parent[k]] in parent && depth[parent[parent[k]]] < depth[k]
    ensures root[parent[parent[k]]] == root[k]
  {
    assert NodeOk(parent, root, depth, k);
    assert NodeOk(parent, root, depth, parent[k]);
    var halved := parent[k := parent[parent[k]]];
    forall n | n in halved ensures NodeOk(halved, root, depth, n) {
      assert NodeOk(parent, root, depth, n);
      assert NodeOk(parent, root, depth, root[n]);
    }
  }

  ghost function Sunk(root: map<Key, Key>, depth: map<Key, nat>, ra: Key, rb: Key): map<Key, nat>
    requires root.Keys == depth.Keys && rb in depth
  {
    map k | k in depth :: if root[k] == ra then depth[k] + depth[rb] + 1 else depth[k]
  }

  lemma HookingKeepsForest(parent: map<Key, Key>, root: map<Key, Key>, depth: map<Key, nat>, a: Key, b: Key)
    requires IsForest(parent, root, depth) && a in parent && b in parent && root[a] != root[b]
    requires root[a] in parent && root[b] in parent
    ensures IsForest(parent[root[a] := root[b]], Merged(root, a, b), Sunk(root, depth, root[a], root[b]))
  {
    var ra, rb := root[a], root[b];
    assert NodeOk(parent, root, depth, a) && NodeOk(parent, root, depth, b);
    assert NodeOk(parent, root, depth, ra) && NodeOk(parent, root, depth, rb);
    var hooked, joined, sunk := parent[ra := rb], Merged(root, a, b), Sunk(root, depth, ra, rb);
    forall k | k in hooked ensures NodeOk(hooked, joined, sunk, k) {
      assert NodeOk(parent, root, depth, k);
    }
  }

  lemma MergedWithSelf(root: map<Key, Key>, a: Key, b: Key)
    requires a in root && b in root && root[a] == root[b]
    ensures Merged(root, a, b) == root
  {
  }

  /** The `parent` dictionary and its `find` and `union`. */
  class Forest {
    var parent: map<Key, Key>
    ghost var root: map<Key, Key>
    ghost var depth: map<Key, nat>

    ghost predicate Valid()
      reads this
    {
      IsForest(parent, root, depth)
    }

    constructor ()
      ensures Valid() && root == map[]
    {
      parent, root, depth := map[], map[], map[];
    }

    /** Path halving: every other node on the way up is hooked to its grandparent.
        The classes stay as they are. */
    method Find(key: Key) returns (r: Key)
      requires Valid()
      modifies this
      ensures Valid()
      ensures root == Known(old(root), key)
      ensures r in parent && parent[r] == r && r == root[key]
    {
      if key !in parent {
        AddingKeepsForest(parent, root, depth, key);
        parent, root, depth := parent[key := key], root[key := key], depth[key := 0];
      }
      var k := key;
      assert NodeOk(parent, root, depth, k);
      while parent[k] != k
        invariant Valid() && k in parent
        invariant root == Known(old(root), key) && root[k] == root[key]
        decreases depth[k]
      {
        HalvingKeepsForest(parent, root, depth, k);
        parent := parent[k := parent[parent[k]]];
        k := parent[k];
      }
      assert NodeOk(parent, root, depth, k);
      r := k;
    }

    /** Hooks one root under the other: exactly the two classes merge. */
    method Union(a: Key, b: Key)
      requires Valid() && a in root && b in root
      modifies this
      ensures Valid()
      ensures root == Merged(old(root), a, b)
    {
      var ra := Find(a);
      var rb := Find(b);
      if ra != rb {
        HookingKeepsForest(parent, root, depth, a, b);
        parent, depth, root := parent[ra := rb], Sunk(root, depth, ra, rb), Merged(root, a, b);
      } else {
        MergedWithSelf(root, a, b);
      }
    }
  }

  ghost function Known(root: map<Key, Key>, key: Key): map<Key, Key> {
    if key in root then root else root[key := key]
  }

  ghost function Merged(root: map<Key, Key>, a: Key, b: Key): map<Key, Key>
    requires a in root && b in root
  {
    map k | k in root :: if root[k] == root[a] then root[b] else root[k]
  }

  // ------------------------------------------------------------ group_lineages

  predicate KeyLe(a: Key, b: Key) {
    if a.host != b.host then StringLe(a.host, b.host) else StringLe(a.dataset, b.dataset)
  }

  predicate CreationLe(p: Place, q: Place) { p.row.creation <= q.row.creation }

  function Summarize(key: Key, rows: seq<Place>): Copy {
    var snaps := Sort(CreationLe, rows);
    if snaps == [] then Copy(key.host, key.dataset, 0, None, None, {}, "")
    else
      var last := snaps[|snaps| - 1];
      Copy(key.host, key.dataset, |snaps|, Some(snaps[0].row.creation), Some(last.row.creation),
           set s | s in snaps :: s.row.guid, last.row.snapshot)
  }

  function Copies(keys: seq<Key>, members: map<Key, seq<Place>>): (r: seq<Copy>)
    requires forall k :: k in keys ==> k in members
    ensures |r| == |keys|
    ensures forall i :: 0 <= i < |keys| ==> r[i] == Summarize(keys[i], members[keys[i]])
  {
    if keys == [] then [] else [Summarize(keys[0], members[keys[0]])] + Copies(keys[1..], members)
  }

  /** Equal roots only for connected keys. */
  ghost predicate RootsSound(places: seq<Place>, root: map<Key, Key>) {
    forall a, b :: a in root && b in root && root[a] == root[b] ==> Connected(places, a, b)
  }

  /** One root for all places of a group. */
  ghost predicate RootsJoin(root: map<Key, Key>, group: seq<Place>) {
    forall i :: 0 <= i < |group| ==>
      KeyOf(group[i]) in root && KeyOf(group[0]) in root && root[KeyOf(group[i])] == root[KeyOf(group[0])]
  }

  ghost predicate AllJoined(root: map<Key, Key>, done: set<seq<Place>>) {
    forall g {:trigger RootsJoin(root, g)} :: g in done ==> RootsJoin(root, g)
  }

  lemma MergedSound(places: seq<Place>, root: map<Key, Key>, a: Key, b: Key)
    requires RootsSound(places, root) && a in root && b in root && Connected(places, a, b)
    ensures RootsSound(places, Merged(root, a, b))
  {
    var joined := Merged(root, a, b);
    ConnectedSymmetric(places, a, b);
    forall x, y | x in joined && y in joined && joined[x] == joined[y] ensures Connected(places, x, y) {
      if root[x] != root[y] {
        if root[x] == root[a] {
          ConnectedTransitive(places, x, a, b);
          ConnectedTransitive(places, x, b, y);
        } else {
          ConnectedTransitive(places, x, b, a);
          ConnectedTransitive(places, x, a, y);
        }
      }
    }
  }

  lemma MergedKeepsJoins(root: map<Key, Key>, a: Key, b: Key, done: set<seq<Place>>)
    requires a in root && b in root && AllJoined(root, done)
    ensures AllJoined(Merged(root, a, b), done)
  {
    forall g | g in done ensures RootsJoin(Merged(root, a, b), g) {
      assert RootsJoin(root, g);
    }
  }

  lemma MergedJoinsOneMore(root: map<Key, Key>, group: seq<Place>, i: nat)
    requires 0 < i < |group| && RootsJoin(root, group[..i]) && KeyOf(group[i]) in root
    ensures KeyOf(group[0]) in root
    ensures RootsJoin(Merged(root, KeyOf(group[0]), KeyOf(group[i])), group[..i + 1])
  {
    var sofar, more := group[..i], group[..i + 1];
    assert KeyOf(sofar[0]) in root;
    forall j | 0 <= j < |more|
      ensures KeyOf(more[j]) in root && (j < i ==> root[KeyOf(more[j])] == root[KeyOf(more[0])]) {
      if j < i {
        assert more[j] == sofar[j];
      }
    }
  }

  /** All (host, dataset) pairs and their rows, and a forest with every pair on its own. */
  method CollectMembers(places: seq<Place>) returns (members: map<Key, seq<Place>>, order: seq<Key>, forest: Forest)
    ensures GroupsOf(members, places, KeyOf) && OrderOf(order, members)
    ensures fresh(forest) && forest.Valid()
    ensures forest.root.Keys == members.Keys && forall k :: k in forest.root ==> forest.root[k] == k
  {
    forest := new Forest();
    members, order := map[], [];
    for i := 0 to |places|
      invariant GroupsOf(members, places[..i], KeyOf) && OrderOf(order, members)
      invariant fresh(forest) && forest.Valid() && forest.root.Keys == members.Keys
      invariant forall k :: k in forest.root ==> forest.root[k] == k
    {
      var key := KeyOf(places[i]);
      PlaceKeepsGroups(members, order, places, i);
      members, order := Push(members, key, places[i]), PushKey(members, order, key);
      var _ := forest.Find(key);
    }
    assert places[..|places|] == places;
  }

  lemma PlaceKeepsGroups(members: map<Key, seq<Place>>, order: seq<Key>, places: seq<Place>, i: nat)
    requires i < |places| && GroupsOf(members, places[..i], KeyOf) && OrderOf(order, members)
    ensures var key := KeyOf(places[i]); var more := Push(members, key, places[i]);
            && more.Keys == members.Keys + {key}
            && GroupsOf(more, places[..i + 1], KeyOf) && OrderOf(PushKey(members, order, key), more)
  {
    PushKeepsGroups(members, places[..i], KeyOf, places[i]);
    PushKeyKeepsOrder(order, members, KeyOf(places[i]), places[i]);
    assert places[..i + 1] == places[..i] + [places[i]];
  }

  lemma SingletonsSound(places: seq<Place>, root: map<Key, Key>)
    requires forall k :: k in root ==> root[k] == k
    ensures RootsSound(places, root)
  {
    forall a | a in root ensures Connected(places, a, a) {
      ConnectedReflexive(places, a);
    }
  }

  /** guid -> every place that guid exists. */
  method BuildGuidIndex(places: seq<Place>) returns (index: map<string, seq<Place>>, order: seq<string>)
    ensures GroupsOf(index, places, GuidOf) && OrderOf(order, index)
  {
    index, order := map[], [];
    for i := 0 to |places|
      invariant GroupsOf(index, places[..i], GuidOf) && OrderOf(order, index)
    {
      var guid := places[i].row.guid;
      PushKeepsGroups(index, places[..i], GuidOf, places[i]);
      PushKeyKeepsOrder(order, index, guid, places[i]);
      assert places[..i + 1] == places[..i] + [places[i]];
      index, order := Push(index, guid, places[i]), PushKey(index, order, guid);
    }
    assert places[..|places|] == places;
  }

  predicate AnyMigration(group: seq<Place>) { exists p :: p in group && IsMigration(p.row.snapshot) }

  /** One guid's places are joined into one class, star-wise from the first place. */
  method JoinPlaces(forest: Forest, group: seq<Place>, ghost places: seq<Place>, ghost done: set<seq<Place>>)
    requires forest.Valid() && group != []
    requires RootsSound(places, forest.root) && AllJoined(forest.root, done)
    requires forall i :: 0 <= i < |group| ==> KeyOf(group[i]) in forest.root
    requires forall i :: 0 <= i < |group| ==> Linked(places, KeyOf(group[0]), KeyOf(group[i]))
    modifies forest
    ensures forest.Valid() && forest.root.Keys == old(forest.root.Keys)
    ensures RootsSound(places, forest.root) && AllJoined(forest.root, done + {group})
  {
    var first := KeyOf(group[0]);
    for i := 1 to |group|
      invariant forest.Valid() && forest.root.Keys == old(forest.root.Keys)
      invariant RootsSound(places, forest.root) && AllJoined(forest.root, done)
      invariant RootsJoin(forest.root, group[..i])
    {
      var other := KeyOf(group[i]);
      LinkedConnects(places, first, other);
      MergedSound(places, forest.root, first, other);
      MergedKeepsJoins(forest.root, first, other, done);
      MergedJoinsOneMore(forest.root, group, i);
      forest.Union(first, other);
    }
    assert group[..|group|] == group;
  }

  /** Afterwards two keys have one root exactly when a chain of shared evidence guids connects them. */
  method JoinByGuid(forest: Forest, places: seq<Place>)
    requires forest.Valid() && RootsSound(places, forest.root)
    requires forall i :: 0 <= i < |places| ==> KeyOf(places[i]) in forest.root
    modifies forest
    ensures forest.Valid() && forest.root.Keys == old(forest.root.Keys)
    ensures RootsExact(places, forest.root)
  {
    var index, order := BuildGuidIndex(places);
    ghost var done: set<seq<Place>> := {};
    for i := 0 to |order|
      invariant forest.Valid() && forest.root.Keys == old(forest.root.Keys)
      invariant RootsSound(places, forest.root) && AllJoined(forest.root, done)
      invariant forall j :: 0 <= j < i ==> Handled(index, done, order[j])
    {
      var group := index[order[i]];
      assert GroupOk(index, places, GuidOf, order[i]);
      if |group| >= 2 && !AnyMigration(group) {
        GroupIsLinked(places, order[i], group);
        JoinPlaces(forest, group, places, done);
        done := done + {group};
      }
    }
    LinksAreJoined(places, index, order, forest.root, done);
    LinksMakeExact(places, forest.root);
  }

  ghost predicate Handled(index: map<string, seq<Place>>, done: set<seq<Place>>, guid: string) {
    guid in index && (|index[guid]| >= 2 && !AnyMigration(index[guid]) ==> index[guid] in done)
  }

  ghost predicate RootsExact(places: seq<Place>, root: map<Key, Key>) {
    forall a, b :: a in root && b in root ==> (root[a] == root[b] <==> Connected(places, a, b))
  }

  lemma {:induction false} GroupIsLinked(places: seq<Place>, guid: string, group: seq<Place>)
    requires group == Select(places, GuidOf, guid) && !AnyMigration(group)
    ensures forall i :: 0 <= i < |group| ==> group[i] in places
    ensures forall i :: 0 <= i < |group| ==> Linked(places, KeyOf(group[0]), KeyOf(group[i]))
  {
    SelectMembers(places, GuidOf, guid);
    assert Evidence(places, guid);
    forall i | 0 <= i < |group| ensures Linked(places, KeyOf(group[0]), KeyOf(group[i])) {
      assert group[0] in places && group[i] in places;
    }
  }

  lemma LinksAreJoined(places: seq<Place>, index: map<string, seq<Place>>, order: seq<string>,
                       root: map<Key, Key>, done: set<seq<Place>>)
    requires GroupsOf(index, places, GuidOf) && OrderOf(order, index)
    requires forall i :: 0 <= i < |places| ==> KeyOf(places[i]) in root
    requires AllJoined(root, done)
    requires forall j :: 0 <= j < |order| ==> Handled(index, done, order[j])
    ensures LinksAgree(places, root)
  {
    forall a, b | Linked(places, a, b) ensures a in root && b in root && root[a] == root[b] {
      var p, q :| p in places && q in places && KeyOf(p) == a && KeyOf(q) == b
                  && p.row.guid == q.row.guid && Evidence(places, p.row.guid);
      LinkIsJoined(places, index, order, root, done, p, q);
    }
  }

  lemma LinkIsJoined(places: seq<Place>, index: map<string, seq<Place>>, order: seq<string>,
                     root: map<Key, Key>, done: set<seq<Place>>, p: Place, q: Place)
    requires GroupsOf(index, places, GuidOf) && OrderOf(order, index)
    requires forall i :: 0 <= i < |places| ==> KeyOf(places[i]) in root
    requires AllJoined(root, done)
    requires forall j :: 0 <= j < |order| ==> Handled(index, done, order[j])
    requires p in places && q in places && p.row.guid == q.row.guid && Evidence(places, p.row.guid)
    ensures KeyOf(p) in root && KeyOf(q) in root && root[KeyOf(p)] == root[KeyOf(q)]
  {
    var guid := GuidOf(p);
    assert guid in index && guid in order;
    assert Handled(index, done, guid);
    assert GroupOk(index, places, GuidOf, guid);
    SelectMembers(places, GuidOf, guid);
    var group := index[guid];
    assert p in group && q in group;
    if |group| >= 2 {
      assert !AnyMigration(group);
      assert RootsJoin(root, group);
    } else {
      assert group[0] == p && group[0] == q;
    }
  }

  lemma LinksMakeExact(places: seq<Place>, root: map<Key, Key>)
    requires RootsSound(places, root) && LinksAgree(places, root)
    ensures RootsExact(places, root)
  {
    forall a, b | a in root && b in root && Connected(places, a, b) ensures root[a] == root[b] {
      var path :| Chain(places, path, a, b);
      LabelsAgree(places, root, path, a, b);
    }
  }

  // ------------------------------------------------------------- the result

  lemma KeyLeOrders()
    ensures TotalPreorder(KeyLe)
    ensures forall a, b :: KeyLe(a, b) && KeyLe(b, a) ==> a == b
  {
    forall a, b ensures KeyLe(a, b) || KeyLe(b, a) {
      StringLeTotal(a.host, b.host);
      StringLeTotal(a.dataset, b.dataset);
    }
    forall a, b | KeyLe(a, b) && KeyLe(b, a) ensures a == b {
      if a.host != b.host {
        StringLeAntisymmetric(a.host, b.host);
      } else {
        StringLeAntisymmetric(a.dataset, b.dataset);
      }
    }
    forall a, b, c | KeyLe(a, b) && KeyLe(b, c) ensures KeyLe(a, c) {
      KeyLeTransitive(a, b, c);
    }
  }

  lemma KeyLeTransitive(a: Key, b: Key, c: Key)
    requires KeyLe(a, b) && KeyLe(b, c)
    ensures KeyLe(a, c)
  {
    if a.host != b.host && b.host != c.host {
      StringLeTransitive(a.host, b.host, c.host);
      if a.host == c.host {
        StringLeAntisymmetric(a.host, b.host);
      }
    } else if a.host == b.host == c.host {
      StringLeTransitive(a.dataset, b.dataset, c.dataset);
    }
  }

  /** What `group_lineages` keeps of one (host, dataset) pair accounts for all of its rows. */
  lemma SummaryAccountsForAllRows(key: Key, rows: seq<Place>)
    requires rows != []
    ensures var c := Summarize(key, rows);
            && CopyKey(c) == key && c.snapshotCount == |rows|
            && c.guids == (set p | p in rows :: p.row.guid)
            && c.oldest.Some? && c.newest.Some?
            && (forall p :: p in rows ==> c.oldest.value <= p.row.creation <= c.newest.value)
            && (exists p :: p in rows && p.row.creation == c.oldest.value)
            && (exists p :: p in rows && p.row.creation == c.newest.value && p.row.snapshot == c.newestSnapshot)
  {
    SortedExtremes(rows);
    var snaps := Sort(CreationLe, rows);
    SortKeepsElements(CreationLe, rows);
    assert snaps[0] in rows && snaps[|snaps| - 1] in rows;
  }

  /** The first in order of creation is the oldest, the last the newest. */
  lemma {:induction false} SortedExtremes(rows: seq<Place>)
    requires rows != []
    ensures var snaps := Sort(CreationLe, rows);
            && |snaps| == |rows| && snaps[0] in rows && snaps[|snaps| - 1] in rows
            && forall p :: p in rows ==> snaps[0].row.creation <= p.row.creation <= snaps[|snaps| - 1].row.creation
  {
    SortKeepsElements(CreationLe, rows);
    SortIsSorted(CreationLe, rows);
    var snaps := Sort(CreationLe, rows);
    assert snaps[0] in snaps && snaps[|snaps| - 1] in snaps;
    forall p | p in rows ensures snaps[0].row.creation <= p.row.creation <= snaps[|snaps| - 1].row.creation {
      assert p in snaps;
      var i :| 0 <= i < |snaps| && snaps[i] == p;
      InsideSorted(snaps, i);
    }
  }

  lemma InsideSorted(snaps: seq<Place>, i: nat)
    requires SortedBy(CreationLe, snaps) && i < |snaps|
    ensures snaps[0].row.creation <= snaps[i].row.creation <= snaps[|snaps| - 1].row.creation
  {
    assert i > 0 ==> CreationLe(snaps[0], snaps[i]);
    assert i < |snaps| - 1 ==> CreationLe(snaps[i], snaps[|snaps| - 1]);
  }

  ghost function KeysOf(l: Lineage): set<Key> { set c | c in l.copies :: CopyKey(c) }

  ghost predicate Exhaustive(places: seq<Place>, out: seq<Lineage>) {
    forall p :: p in places ==> exists i :: 0 <= i < |out| && KeyOf(p) in KeysOf(out[i])
  }

  ghost predicate Faithful(places: seq<Place>, l: Lineage) {
    && l.copies != []
    && (forall c :: c in l.copies ==> c == Summarize(CopyKey(c), Select(places, KeyOf, CopyKey(c))))
    && (forall c :: c in l.copies ==> Select(places, KeyOf, CopyKey(c)) != [])
    && (forall i, j :: 0 <= i < j < |l.copies| ==>
          CopyKey(l.copies[i]) != CopyKey(l.copies[j]) && KeyLe(CopyKey(l.copies[i]), CopyKey(l.copies[j])))
  }

  ghost predicate Components(places: seq<Place>, out: seq<Lineage>) {
    forall i, j, a, b {:trigger Connected(places, a, b), KeysOf(out[i]), KeysOf(out[j])} ::
      0 <= i < |out| && 0 <= j < |out| && a in KeysOf(out[i]) && b in KeysOf(out[j]) ==>
        (i == j <==> Connected(places, a, b))
  }

  /** The lineages are the connected components: nothing is missing, every copy
      sums up all of its rows, and two copies share a lineage exactly when a
      chain of evidence guids connects them. */
  ghost predicate IsGrouping(places: seq<Place>, out: seq<Lineage>) {
    && Exhaustive(places, out)
    && (forall i :: 0 <= i < |out| ==> Faithful(places, out[i]))
    && Components(places, out)
  }

  ghost function RootFn(root: map<Key, Key>): Key -> Key { k => if k in root then root[k] else k }

  ghost predicate BuiltFrom(l: Lineage, members: map<Key, seq<Place>>, keys: seq<Key>)
    requires forall k :: k in keys ==> k in members
  {
    (forall k :: k in Sort(KeyLe, keys) ==> k in members) && l.copies == Copies(Sort(KeyLe, keys), members)
  }

  method GroupByRoot(order: seq<Key>, forest: Forest)
    returns (grouped: map<Key, seq<Key>>, roots: seq<Key>)
    requires forest.Valid() && forall i :: 0 <= i < |order| ==> order[i] in forest.root
    modifies forest
    ensures forest.root == old(forest.root)
    ensures GroupsOf(grouped, order, RootFn(forest.root)) && OrderOf(roots, grouped)
  {
    grouped, roots := map[], [];
    for i := 0 to |order|
      invariant forest.Valid() && forest.root == old(forest.root)
      invariant GroupsOf(grouped, order[..i], RootFn(forest.root)) && OrderOf(roots, grouped)
    {
      var r := forest.Find(order[i]);
      PushKeepsGroups(grouped, order[..i], RootFn(forest.root), order[i]);
      PushKeyKeepsOrder(roots, grouped, r, order[i]);
      assert order[..i + 1] == order[..i] + [order[i]];
      grouped, roots := Push(grouped, r, order[i]), PushKey(grouped, roots, r);
    }
    assert order[..|order|] == order;
  }

  method GroupLineages(places: seq<Place>) returns (out: seq<Lineage>)
    ensures IsGrouping(places, out)
  {
    var members, order, forest := CollectMembers(places);
    SingletonsSound(places, forest.root);
    JoinByGuid(forest, places);
    var grouped, roots := GroupByRoot(order, forest);
    ghost var root := forest.root;
    GroupedAreMembers(members, order, grouped, root);
    out := BuildLineages(members, grouped, roots);
    BuiltIsGrouping(places, members, order, root, grouped, roots, out);
  }

  /** The loop that turns the groups into lineages. */
  method BuildLineages(members: map<Key, seq<Place>>, grouped: map<Key, seq<Key>>, roots: seq<Key>)
    returns (out: seq<Lineage>)
    requires forall i :: 0 <= i < |roots| ==> roots[i] in grouped
    requires forall r, k :: r in grouped && k in grouped[r] ==> k in members
    ensures |out| == |roots| && forall j :: 0 <= j < |roots| ==> BuiltFrom(out[j], members, grouped[roots[j]])
  {
    out := [];
    for i := 0 to |roots|
      invariant |out| == i
      invariant forall j :: 0 <= j < i ==> BuiltFrom(out[j], members, grouped[roots[j]])
    {
      SortKeepsElements(KeyLe, grouped[roots[i]]);
      out := out + [Lineage(Copies(Sort(KeyLe, grouped[roots[i]]), members))];
    }
  }

  lemma GroupedAreMembers(members: map<Key, seq<Place>>, order: seq<Key>, grouped: map<Key, seq<Key>>,
                          root: map<Key, Key>)
    requires OrderOf(order, members) && GroupsOf(grouped, order, RootFn(root))
    ensures forall r, k :: r in grouped && k in grouped[r] ==> k in members
  {
    forall r, k | r in grouped && k in grouped[r] ensures k in members {
      assert GroupOk(grouped, order, RootFn(root), r);
      SelectMembers(order, RootFn(root), r);
      assert k in order;
    }
  }

  ghost predicate Setup(places: seq<Place>, members: map<Key, seq<Place>>, order: seq<Key>, root: map<Key, Key>,
                        grouped: map<Key, seq<Key>>, roots: seq<Key>) {
    && GroupsOf(members, places, KeyOf) && OrderOf(order, members) && root.Keys == members.Keys
    && RootsExact(places, root)
    && GroupsOf(grouped, order, RootFn(root)) && OrderOf(roots, grouped)
    && (forall r, k :: r in grouped && k in grouped[r] ==> k in members)
  }

  lemma SummaryKey(key: Key, rows: seq<Place>)
    ensures CopyKey(Summarize(key, rows)) == key
  {
  }

  lemma {:induction false} KeysOfBuilt(l: Lineage, members: map<Key, seq<Place>>, keys: seq<Key>)
    requires (forall k :: k in keys ==> k in members) && BuiltFrom(l, members, keys)
    ensures |l.copies| == |keys|
    ensures forall i :: 0 <= i < |l.copies| ==> CopyKey(l.copies[i]) == Sort(KeyLe, keys)[i]
    ensures forall k :: k in KeysOf(l) <==> k in keys
  {
    SortKeepsElements(KeyLe, keys);
    var sorted := Sort(KeyLe, keys);
    forall i | 0 <= i < |sorted| ensures CopyKey(l.copies[i]) == sorted[i] {
      SummaryKey(sorted[i], members[sorted[i]]);
    }
    forall k | k in keys ensures k in KeysOf(l) {
      var i :| 0 <= i < |sorted| && sorted[i] == k;
      assert l.copies[i] in l.copies;
    }
  }

  lemma RootGroup(places: seq<Place>, members: map<Key, seq<Place>>, order: seq<Key>, root: map<Key, Key>,
                  grouped: map<Key, seq<Key>>, roots: seq<Key>, r: Key, k: Key)
    requires Setup(places, members, order, root, grouped, roots) && r in grouped
    ensures k in grouped[r] <==> k in members && root[k] == r
    ensures grouped[r] != []
  {
    assert GroupOk(grouped, order, RootFn(root), r);
    SelectMembers(order, RootFn(root), r);
    if k in members {
      assert k in order;
    }
  }

  lemma {:induction false} SelectDistinct<A, K(!new)>(items: seq<A>, key: A -> K, k: K)
    requires Distinct(items)
    ensures Distinct(Select(items, key, k))
  {
    if items != [] {
      var n := |items| - 1;
      SelectDistinct(items[..n], key, k);
      SelectMembers(items[..n], key, k);
    }
  }

  lemma BuiltIsFaithful(places: seq<Place>, members: map<Key, seq<Place>>, order: seq<Key>, root: map<Key, Key>,
                        grouped: map<Key, seq<Key>>, roots: seq<Key>, r: Key, l: Lineage)
    requires Setup(places, members, order, root, grouped, roots) && r in grouped
    requires BuiltFrom(l, members, grouped[r])
    ensures Faithful(places, l)
  {
    var keys := grouped[r];
    KeysOfBuilt(l, members, keys);
    KeyLeOrders();
    SortIsSorted(KeyLe, keys);
    RootGroup(places, members, order, root, grouped, roots, r, r);
    assert GroupOk(grouped, order, RootFn(root), r);
    SelectDistinct(order, RootFn(root), r);
    SortDistinct(KeyLe, keys);
    forall c | c in l.copies
      ensures c == Summarize(CopyKey(c), Select(places, KeyOf, CopyKey(c))) && Select(places, KeyOf, CopyKey(c)) != []
    {
      var i :| 0 <= i < |l.copies| && l.copies[i] == c;
      assert GroupOk(members, places, KeyOf, CopyKey(c));
    }
  }

  lemma BuiltIsExhaustive(places: seq<Place>, members: map<Key, seq<Place>>, order: seq<Key>, root: map<Key, Key>,
                          grouped: map<Key, seq<Key>>, roots: seq<Key>, out: seq<Lineage>)
    requires Setup(places, members, order, root, grouped, roots)
    requires |out| == |roots| && forall j :: 0 <= j < |out| ==> BuiltFrom(out[j], members, grouped[roots[j]])
    ensures Exhaustive(places, out)
  {
    forall p | p in places ensures exists i :: 0 <= i < |out| && KeyOf(p) in KeysOf(out[i]) {
      var k := KeyOf(p);
      assert k in members && k in order;
      assert RootFn(root)(k) in grouped;
      var i :| 0 <= i < |roots| && roots[i] == root[k];
      RootGroup(places, members, order, root, grouped, roots, root[k], k);
      KeysOfBuilt(out[i], members, grouped[roots[i]]);
    }
  }

  lemma BuiltIsComponents(places: seq<Place>, members: map<Key, seq<Place>>, order: seq<Key>, root: map<Key, Key>,
                          grouped: map<Key, seq<Key>>, roots: seq<Key>, out: seq<Lineage>)
    requires Setup(places, members, order, root, grouped, roots)
    requires |out| == |roots| && forall j :: 0 <= j < |out| ==> BuiltFrom(out[j], members, grouped[roots[j]])
    ensures Components(places, out)
  {
    forall i, j, a, b | 0 <= i < |out| && 0 <= j < |out| && a in KeysOf(out[i]) && b in KeysOf(out[j])
      ensures i == j <==> Connected(places, a, b)
    {
      KeysOfBuilt(out[i], members, grouped[roots[i]]);
      RootGroup(places, members, order, root, grouped, roots, roots[i], a);
      KeysOfBuilt(out[j], members, grouped[roots[j]]);
      RootGroup(places, members, order, root, grouped, roots, roots[j], b);
      assert root[a] == root[b] <==> Connected(places, a, b);
    }
  }

  lemma BuiltIsGrouping(places: seq<Place>, members: map<Key, seq<Place>>, order: seq<Key>, root: map<Key, Key>,
                        grouped: map<Key, seq<Key>>, roots: seq<Key>, out: seq<Lineage>)
    requires Setup(places, members, order, root, grouped, roots)
    requires |out| == |roots| && forall j :: 0 <= j < |out| ==> BuiltFrom(out[j], members, grouped[roots[j]])
    ensures IsGrouping(places, out)
  {
    BuiltIsExhaustive(places, members, order, root, grouped, roots, out);
    BuiltIsComponents(places, members, order, root, grouped, roots, out);
    forall i | 0 <= i < |out| ensures Faithful(places, out[i]) {
      BuiltIsFaithful(places, members, order, root, grouped, roots, roots[i], out[i]);
    }
  }

  /** The partition does not depend on the order in which hosts and snapshots were listed. */
  lemma PartitionIgnoresOrder(p1: seq<Place>, out1: seq<Lineage>, p2: seq<Place>, out2: seq<Lineage>, i: nat)
    requires IsGrouping(p1, out1) && IsGrouping(p2, out2)
    requires forall p :: p in p1 <==> p in p2
    requires i < |out1|
    ensures exists j :: 0 <= j < |out2| && KeysOf(out2[j]) == KeysOf(out1[i])
  {
    assert Faithful(p1, out1[i]);
    var k := CopyKey(out1[i].copies[0]);
    assert out1[i].copies[0] in out1[i].copies;
    PlaceOfKey(p1, out1[i], k);
    var j := LineageHolding(p2, out2, k);
    SameComponent(p1, out1, p2, out2, i, j, k);
    SameComponent(p2, out2, p1, out1, j, i, k);
  }

  lemma LineageHolding(places: seq<Place>, out: seq<Lineage>, k: Key) returns (j: nat)
    requires Exhaustive(places, out) && exists p :: p in places && KeyOf(p) == k
    ensures j < |out| && k in KeysOf(out[j])
  {
    var p :| p in places && KeyOf(p) == k;
    j :| 0 <= j < |out| && KeyOf(p) in KeysOf(out[j]);
  }

  lemma SameComponent(p1: seq<Place>, out1: seq<Lineage>, p2: seq<Place>, out2: seq<Lineage>, i: nat, j: nat, k: Key)
    requires IsGrouping(p1, out1) && IsGrouping(p2, out2)
    requires forall p :: p in p1 <==> p in p2
    requires i < |out1| && j < |out2| && k in KeysOf(out1[i]) && k in KeysOf(out2[j])
    ensures KeysOf(out1[i]) <= KeysOf(out2[j])
  {
    forall a | a in KeysOf(out1[i]) ensures a in KeysOf(out2[j]) {
      ConnectedIgnoresOrder(p1, p2, k, a);
      PlaceOfKey(p1, out1[i], a);
      var p :| p in p1 && KeyOf(p) == a;
      var n :| 0 <= n < |out2| && KeyOf(p) in KeysOf(out2[n]);
    }
  }

  lemma PlaceOfKey(places: seq<Place>, l: Lineage, a: Key)
    requires Faithful(places, l) && a in KeysOf(l)
    ensures exists p :: p in places && KeyOf(p) == a
  {
    SelectMembers(places, KeyOf, a);
    var p := Select(places, KeyOf, a)[0];
    assert p in Select(places, KeyOf, a);
  }

  lemma ConnectedIgnoresOrder(p1: seq<Place>, p2: seq<Place>, a: Key, b: Key)
    requires Connected(p1, a, b) && forall p :: p in p1 <==> p in p2
    ensures Connected(p2, a, b)
  {
    var path :| Chain(p1, path, a, b);
    forall n | 0 <= n < |path| - 1 ensures Linked(p2, path[n], path[n + 1]) {
      LinkedIgnoresOrder(p1, p2, path[n], path[n + 1]);
    }
    assert Chain(p2, path, a, b);
  }

  lemma LinkedIgnoresOrder(p1: seq<Place>, p2: seq<Place>, a: Key, b: Key)
    requires Linked(p1, a, b) && forall p :: p in p1 <==> p in p2
    ensures Linked(p2, a, b)
  {
    var p, q :| p in p1 && q in p1 && KeyOf(p) == a && KeyOf(q) == b
                && p.row.guid == q.row.guid && Evidence(p1, p.row.guid);
    assert Evidence(p2, p.row.guid);
  }

  // ---------------------------------------------------------- detect_source

  /** `(newest, snapshot_count, host)` compared as Python compares tuples. */
  predicate RankLe(c: Copy, d: Copy)
    requires c.newest.Some? && d.newest.Some?
  {
    || c.newest.value < d.newest.value
    || (c.newest.value == d.newest.value
        && (c.snapshotCount < d.snapshotCount
            || (c.snapshotCount == d.snapshotCount && StringLe(c.host, d.host))))
  }

  /** The first candidate of the highest rank, as Python's `max` picks it. */
  function DetectSource(copies: seq<Copy>): Option<Copy> {
    if copies == [] then None
    else
      var n := |copies| - 1;
      var best := DetectSource(copies[..n]);
      if copies[n].newest.None? then best
      else if best.None? || best.value.newest.None? then Some(copies[n])
      else if RankLe(copies[n], best.value) then best
      else Some(copies[n])
  }

  /** A candidate that no other candidate outranks. */
  ghost predicate Top(copies: seq<Copy>, c: Copy) {
    c in copies && c.newest.Some? && forall d :: d in copies && d.newest.Some? ==> RankLe(d, c)
  }

  lemma RankLeOrders(c: Copy, d: Copy, e: Copy)
    requires c.newest.Some? && d.newest.Some? && e.newest.Some?
    ensures RankLe(c, c) && (RankLe(c, d) || RankLe(d, c))
    ensures RankLe(c, d) && RankLe(d, e) ==> RankLe(c, e)
  {
    StringLeTotal(c.host, d.host);
    StringLeTotal(c.host, c.host);
    if RankLe(c, d) && RankLe(d, e) && StringLe(c.host, d.host) && StringLe(d.host, e.host) {
      StringLeTransitive(c.host, d.host, e.host);
    }
  }

  lemma {:induction false} DetectedIsTop(copies: seq<Copy>)
    ensures DetectSource(copies).Some? ==> Top(copies, DetectSource(copies).value)
    ensures DetectSource(copies).None? <==> forall c :: c in copies ==> c.newest.None?
  {
    if copies != [] {
      var n := |copies| - 1;
      DetectedIsTop(copies[..n]);
      assert copies == copies[..n] + [copies[n]];
      var best := DetectSource(copies[..n]);
      if copies[n].newest.Some? {
        RankLeOrders(copies[n], copies[n], copies[n]);
      }
      if best.Some? && copies[n].newest.Some? {
        RankLeOrders(best.value, copies[n], copies[n]);
        forall d | d in copies && d.newest.Some? ensures RankLe(d, DetectSource(copies).value) {
          if d != copies[n] {
            assert d in copies[..n];
            RankLeOrders(d, best.value, copies[n]);
          }
        }
      }
    }
  }

  /** The copy has a newer snapshot; or as new a one and more of them; or as many, on a later host. */
  predicate Leads(c: Copy, d: Copy) requires c.newest.Some? && d.newest.Some? {
    || c.newest.value > d.newest.value
    || (c.newest.value == d.newest.value && c.snapshotCount > d.snapshotCount)
    || (c.newest.value == d.newest.value && c.snapshotCount == d.snapshotCount
        && StringLe(d.host, c.host) && c.host != d.host)
  }

  /** Copy `i` has no newer copy beside it; none as new with more snapshots; none as new and as complete
      on a later host; and it is the first of those that tie with it in all of these. */
  ghost predicate IsSourceAt(copies: seq<Copy>, i: int) {
    && 0 <= i < |copies| && copies[i].newest.Some?
    && (forall d :: d in copies && d.newest.Some? ==> d.newest.value <= copies[i].newest.value)
    && (forall d :: d in copies && d.newest == copies[i].newest ==> d.snapshotCount <= copies[i].snapshotCount)
    && (forall d :: d in copies && d.newest == copies[i].newest && d.snapshotCount == copies[i].snapshotCount ==>
          StringLe(d.host, copies[i].host))
    && (forall j :: 0 <= j < i && copies[j].newest.Some? ==> Leads(copies[i], copies[j]))
  }

  /** The source is the copy with the newest snapshot, then the most snapshots, then the greatest host name,
      the first of those that tie; there is none exactly when no copy has a snapshot. */
  lemma {:induction false} SourceIsTop(copies: seq<Copy>)
    ensures DetectSource(copies).Some? ==>
      exists i :: IsSourceAt(copies, i) && DetectSource(copies) == Some(copies[i])
    ensures DetectSource(copies).None? <==> forall c :: c in copies ==> c.newest.None?
  {
    DetectedIsTop(copies);
    if DetectSource(copies).Some? {
      DetectedIsFirst(copies);
      var i :| DetectedAt(copies, i);
      assert IsSourceAt(copies, i);
    }
  }

  ghost predicate DetectedAt(copies: seq<Copy>, i: int) {
    && 0 <= i < |copies| && copies[i].newest.Some? && DetectSource(copies) == Some(copies[i])
    && forall j :: 0 <= j < i && copies[j].newest.Some? ==> Leads(copies[i], copies[j])
  }

  lemma NotRankedLeads(c: Copy, d: Copy)
    requires c.newest.Some? && d.newest.Some? && !RankLe(c, d)
    ensures Leads(c, d)
  {
    StringLeTotal(c.host, d.host);
  }

  lemma LeadsTransitive(c: Copy, d: Copy, e: Copy)
    requires c.newest.Some? && d.newest.Some? && e.newest.Some? && Leads(c, d) && (Leads(d, e) || d == e)
    ensures Leads(c, e)
  {
    if StringLe(d.host, c.host) && StringLe(e.host, d.host) {
      StringLeTransitive(e.host, d.host, c.host);
      if c.host == e.host {
        StringLeAntisymmetric(d.host, c.host);
      }
    }
  }

  lemma NewestLeads(c: Copy, d: Copy, e: Copy)
    requires c.newest.Some? && d.newest.Some? && e.newest.Some? && RankLe(e, d) && Leads(c, d)
    ensures Leads(c, e)
  {
    if RankLe(d, e) && d.host != e.host {
      StringLeAntisymmetric(d.host, e.host);
    }
    if !Leads(d, e) {
      assert e.newest == d.newest && e.snapshotCount == d.snapshotCount && StringLe(e.host, d.host);
      assert e.host == d.host;
    } else {
      LeadsTransitive(c, d, e);
    }
  }

  lemma {:induction false} DetectedIsFirst(copies: seq<Copy>)
    requires DetectSource(copies).Some?
    ensures exists i :: DetectedAt(copies, i)
  {
    var n := |copies| - 1;
    DetectedIsTop(copies[..n]);
    var best := DetectSource(copies[..n]);
    if best.Some? {
      DetectedIsFirst(copies[..n]);
      var i :| DetectedAt(copies[..n], i);
      assert copies[..n][i] == copies[i];
      if copies[n].newest.None? || RankLe(copies[n], best.value) {
        assert DetectedAt(copies, i) by {
          assert forall j :: 0 <= j < i ==> copies[..n][j] == copies[j];
        }
      } else {
        NotRankedLeads(copies[n], best.value);
        forall j | 0 <= j < n && copies[j].newest.Some? ensures Leads(copies[n], copies[j]) {
          assert copies[..n][j] == copies[j] && copies[j] in copies[..n];
          NewestLeads(copies[n], best.value, copies[j]);
        }
        assert DetectedAt(copies, n);
      }
    } else {
      forall j | 0 <= j < n ensures copies[j].newest.None? {
        assert copies[..n][j] == copies[j] && copies[j] in copies[..n];
      }
      assert DetectedAt(copies, n);
    }
  }

  /** Two copies that `detect_source` cannot tell apart. */
  predicate Alike(c: Copy, d: Copy) {
    CopyKey(c) == CopyKey(d) && c.snapshotCount == d.snapshotCount && c.newest == d.newest
  }

  predicate AllAlike(a: seq<Copy>, b: seq<Copy>) {
    |a| == |b| && forall i :: 0 <= i < |a| ==> Alike(a[i], b[i])
  }

  lemma {:induction false} AlikeSource(a: seq<Copy>, b: seq<Copy>)
    requires AllAlike(a, b)
    ensures DetectSource(a).Some? == DetectSource(b).Some?
    ensures DetectSource(a).Some? ==> Alike(DetectSource(a).value, DetectSource(b).value)
  {
    if a != [] {
      var n := |a| - 1;
      AlikeSource(a[..n], b[..n]);
      assert Alike(a[n], b[n]);
    }
  }

  function CopyKeys(copies: seq<Copy>): (keys: seq<Key>)
    ensures |keys| == |copies| && forall i :: 0 <= i < |keys| ==> keys[i] == CopyKey(copies[i])
  {
    seq(|copies|, i requires 0 <= i < |copies| => CopyKey(copies[i]))
  }

  lemma SameKeySequence(p1: seq<Place>, l1: Lineage, p2: seq<Place>, l2: Lineage)
    requires Faithful(p1, l1) && Faithful(p2, l2) && KeysOf(l1) == KeysOf(l2)
    ensures CopyKeys(l1.copies) == CopyKeys(l2.copies)
  {
    var s, t := CopyKeys(l1.copies), CopyKeys(l2.copies);
    KeysInSequence(l1);
    KeysInSequence(l2);
    SameDistinct(s, t);
    KeyLeOrders();
    SortedIsUnique(KeyLe, s, t);
  }

  lemma SameDistinct(s: seq<Key>, t: seq<Key>)
    requires Distinct(s) && Distinct(t) && forall k :: k in s <==> k in t
    ensures multiset(s) == multiset(t)
  {
    DistinctIsMultiplicity(s);
    DistinctIsMultiplicity(t);
    forall k ensures multiset(s)[k] == multiset(t)[k] {
      assert k in multiset(s) <==> k in s;
      assert k in multiset(t) <==> k in t;
    }
  }

  lemma KeysInSequence(l: Lineage)
    ensures forall k :: k in CopyKeys(l.copies) <==> k in KeysOf(l)
  {
    forall k | k in KeysOf(l) ensures k in CopyKeys(l.copies) {
      var c :| c in l.copies && CopyKey(c) == k;
      var i :| 0 <= i < |l.copies| && l.copies[i] == c;
      assert CopyKeys(l.copies)[i] == k;
    }
  }

  lemma {:induction false} SelectMultiplicity(items: seq<Place>, k: Key, x: Place)
    ensures multiset(Select(items, KeyOf, k))[x] == if KeyOf(x) == k then multiset(items)[x] else 0
  {
    if items != [] {
      var n := |items| - 1;
      SelectMultiplicity(items[..n], k, x);
      assert items == items[..n] + [items[n]];
    }
  }

  /** The same rows in another order are summed up alike. */
  lemma SummaryIgnoresOrder(key: Key, rows: seq<Place>, other: seq<Place>)
    requires rows != [] && multiset(rows) == multiset(other)
    ensures Alike(Summarize(key, rows), Summarize(key, other))
  {
    SameElements(rows, other);
    SummaryAccountsForAllRows(key, rows);
    SummaryAccountsForAllRows(key, other);
  }

  /** "Stable across runs rather than depending on dict ordering": the same snapshot rows, listed
      in any order, give every lineage the same source. */
  lemma SourceIgnoresOrder(p1: seq<Place>, out1: seq<Lineage>, p2: seq<Place>, out2: seq<Lineage>, i: nat)
    requires IsGrouping(p1, out1) && IsGrouping(p2, out2) && multiset(p1) == multiset(p2)
    requires i < |out1|
    ensures exists j :: 0 <= j < |out2| && KeysOf(out2[j]) == KeysOf(out1[i]) && SameSource(out1[i], out2[j])
  {
    SameElements(p1, p2);
    PartitionIgnoresOrder(p1, out1, p2, out2, i);
    var j :| 0 <= j < |out2| && KeysOf(out2[j]) == KeysOf(out1[i]);
    LineagesAlike(p1, out1[i], p2, out2[j]);
    AlikeSource(out1[i].copies, out2[j].copies);
    SourceExists(p1, out1[i]);
  }

  predicate SameSource(l: Lineage, m: Lineage) {
    var a, b := DetectSource(l.copies), DetectSource(m.copies);
    a.Some? && b.Some? && CopyKey(a.value) == CopyKey(b.value)
  }

  lemma SourceExists(places: seq<Place>, l: Lineage)
    requires Faithful(places, l)
    ensures DetectSource(l.copies).Some?
  {
    SourceIsTop(l.copies);
    var c := l.copies[0];
    assert c in l.copies;
    SummaryAccountsForAllRows(CopyKey(c), Select(places, KeyOf, CopyKey(c)));
  }

  lemma LineagesAlike(p1: seq<Place>, l1: Lineage, p2: seq<Place>, l2: Lineage)
    requires Faithful(p1, l1) && Faithful(p2, l2) && KeysOf(l1) == KeysOf(l2) && multiset(p1) == multiset(p2)
    ensures AllAlike(l1.copies, l2.copies)
  {
    SameKeySequence(p1, l1, p2, l2);
    forall n | 0 <= n < |l1.copies| ensures Alike(l1.copies[n], l2.copies[n]) {
      var k := CopyKeys(l1.copies)[n];
      assert CopyKeys(l2.copies)[n] == k && l1.copies[n] in l1.copies && l2.copies[n] in l2.copies;
      forall x ensures multiset(Select(p1, KeyOf, k))[x] == multiset(Select(p2, KeyOf, k))[x] {
        SelectMultiplicity(p1, k, x);
        SelectMultiplicity(p2, k, x);
      }
      SummaryIgnoresOrder(k, Select(p1, KeyOf, k), Select(p2, KeyOf, k));
    }
  }
}
