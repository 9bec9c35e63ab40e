/** A dictionary that the code fills with `setdefault(k, []).append(x)`: a map,
    plus the list of its keys in the order of their first insertion. */
module Grouping {
  import opened Sorting

  function Push<K, A>(groups: map<K, seq<A>>, k: K, x: A): map<K, seq<A>> {
    groups[k := (if k in groups then groups[k] else []) + [x]]
  }

  function PushKey<K(==), A>(groups: map<K, seq<A>>, order: seq<K>, k: K): seq<K> {
    if k in groups then order else order + [k]
  }

  function Select<A, K(==)>(items: seq<A>, key: A -> K, k: K): seq<A> {
    if items == [] then []
    else
      var n := |items| - 1;
      Select(items[..n], key, k) + if key(items[n]) == k then [items[n]] else []
  }

  lemma {:induction false} SelectMembers<A, K>(items: seq<A>, key: A -> K, k: K)
    ensures forall x :: x in Select(items, key, k) <==> x in items && key(x) == k
  {
    if items != [] {
      var n := |items| - 1;
      SelectMembers(items[..n], key, k);
      assert items == items[..n] + [items[n]];
    }
  }

  /** The keys of the dictionary in the order of their insertion. */
  ghost predicate OrderOf<A, K(!new)>(order: seq<K>, groups: map<K, seq<A>>) {
    && Distinct(order)
    && (forall i :: 0 <= i < |order| ==> order[i] in groups)
    && (forall k :: k in groups ==> k in order)
  }

  ghost predicate GroupOk<A, K>(groups: map<K, seq<A>>, items: seq<A>, key: A -> K, k: K) {
    k in groups && groups[k] == Select(items, key, k) && groups[k] != []
  }

  ghost predicate GroupsOf<A, K(!new)>(groups: map<K, seq<A>>, items: seq<A>, key: A -> K) {
    && (forall k {:trigger GroupOk(groups, items, key, k)} :: k in groups ==> GroupOk(groups, items, key, k))
    && (forall i :: 0 <= i < |items| ==> key(items[i]) in groups)
  }

  lemma PushKeyKeepsOrder<A, K(!new)>(order: seq<K>, groups: map<K, seq<A>>, k: K, x: A)
    requires OrderOf(order, groups)
    ensures OrderOf(PushKey(groups, order, k), Push(groups, k, x))
  {
    var longer, more := PushKey(groups, order, k), Push(groups, k, x);
    forall n | n in more ensures n in longer {
      if n == k && k !in groups {
        assert longer[|longer| - 1] == k;
      } else {
        assert n in order;
      }
    }
  }

  lemma PushKeepsGroups<A, K(!new)>(groups: map<K, seq<A>>, items: seq<A>, key: A -> K, x: A)
    requires GroupsOf(groups, items, key)
    ensures GroupsOf(Push(groups, key(x), x), items + [x], key)
  {
    var more, longer := Push(groups, key(x), x), items + [x];
    assert longer[..|longer| - 1] == items;
    forall k | k in more ensures GroupOk(more, longer, key, k) {
      if k in groups {
        assert GroupOk(groups, items, key, k);
      } else {
        NothingToSelect(groups, items, key, k);
      }
    }
  }

  lemma {:induction false} NothingToSelect<A, K(!new)>(groups: map<K, seq<A>>, items: seq<A>, key: A -> K, k: K)
    requires k !in groups && forall i :: 0 <= i < |items| ==> key(items[i]) in groups
    ensures Select(items, key, k) == []
  {
    if items != [] {
      NothingToSelect(groups, items[..|items| - 1], key, k);
    }
  }
}
