/** The cache of command results (`app/cache.py`): a dictionary that forgets expired
    entries only when they are asked for, against the history of what was done to it. */
module TtlCache {
  import opened Text

  datatype Key = Key(host: string, command: string)

  datatype Entry<V> = Entry(expires: real, result: V)

  /** A call and the time the clock showed. */
  datatype Call<V> =
    | Get(key: Key, at: real)
    | Put(key: Key, result: V, ttl: real, at: real)
    | DropHost(host: string)
    | DropAll

  // --------------------------------------------------- what a history amounts to

  predicate Drops<V>(c: Call<V>, key: Key) { c.DropAll? || (c.DropHost? && c.host == key.host) }

  predicate Sets<V>(c: Call<V>, key: Key) { c.Put? && c.key == key && c.ttl > 0.0 }

  /** The last entry set with a positive lifetime and not invalidated since. */
  function LastSet<V>(log: seq<Call<V>>, key: Key): Option<Entry<V>> {
    if log == [] then None
    else
      var c := log[|log| - 1];
      if Drops(c, key) then None
      else if Sets(c, key) then Some(Entry(c.at + c.ttl, c.result))
      else LastSet(log[..|log| - 1], key)
  }

  predicate Live<V>(e: Option<Entry<V>>, now: real) { e.Some? && e.value.expires > now }

  /** What a cache without a memory limit would answer. */
  function Expected<V>(log: seq<Call<V>>, key: Key, now: real): Option<V> {
    var e := LastSet(log, key);
    if Live(e, now) then Some(e.value.result) else None
  }

  /** Since it was set, the entry has been asked for at a time at which it had expired. */
  predicate AskedTooLate<V>(log: seq<Call<V>>, key: Key) {
    if log == [] then false
    else
      var c := log[|log| - 1];
      if Drops(c, key) || Sets(c, key) then false
      else
        || AskedTooLate(log[..|log| - 1], key)
        || (c.Get? && c.key == key && LastSet(log, key).Some? && !Live(LastSet(log, key), c.at))
  }

  /** What the dictionary must hold, whatever the clock did. */
  function Remaining<V>(log: seq<Call<V>>, key: Key): Option<Entry<V>> {
    if AskedTooLate(log, key) then None else LastSet(log, key)
  }

  ghost predicate Represents<V(!new)>(store: map<Key, Entry<V>>, log: seq<Call<V>>) {
    forall key :: Fetch(store, key) == Remaining(log, key)
  }

  function CountOf<V>(log: seq<Call<V>>, p: Call<V> -> bool): nat {
    if log == [] then 0 else CountOf(log[..|log| - 1], p) + if p(log[|log| - 1]) then 1 else 0
  }

  function IsGet<V>(): Call<V> -> bool { (c: Call<V>) => c.Get? }

  function IsWrite<V>(): Call<V> -> bool { (c: Call<V>) => c.Put? && c.ttl > 0.0 }

  /** One more call changes what remains of one key. */
  lemma NextCall<V>(log: seq<Call<V>>, c: Call<V>, key: Key)
    ensures Remaining(log + [c], key) == HeldAfter(Remaining(log, key), c, key)
  {
    assert (log + [c])[..|log|] == log;
  }

  /** The dictionary after a call, when only the entries the call is about have changed. */
  lemma RepresentsNext<V(!new)>(store: map<Key, Entry<V>>, next: map<Key, Entry<V>>, log: seq<Call<V>>, c: Call<V>)
    requires Represents(store, log)
    requires forall key :: Fetch(next, key) == HeldAfter(Fetch(store, key), c, key)
    ensures Represents(next, log + [c])
  {
    forall key ensures Fetch(next, key) == Remaining(log + [c], key) {
      NextCall(log, c, key);
    }
  }

  /** What one call makes of the entry held for a key. */
  function HeldAfter<V>(held: Option<Entry<V>>, c: Call<V>, key: Key): Option<Entry<V>> {
    if Drops(c, key) then None
    else if Sets(c, key) then Some(Entry(c.at + c.ttl, c.result))
    else if c.Get? && c.key == key && !Live(held, c.at) then None
    else held
  }

  lemma PutHolds<V(!new)>(store: map<Key, Entry<V>>, key: Key, result: V, ttl: real, now: real)
    requires ttl > 0.0
    ensures var next := store[key := Entry(now + ttl, result)];
            forall k :: Fetch(next, k) == HeldAfter(Fetch(store, k), Call.Put(key, result, ttl, now), k)
  {
  }

  /** The entries of other hosts, and those of this host that are `left`. */
  function Without<V>(store: map<Key, Entry<V>>, host: string, left: set<Key>): map<Key, Entry<V>> {
    map k | k in store && (k.host != host || k in left) :: store[k]
  }

  lemma NoneLeft<V>(store: map<Key, Entry<V>>, host: string)
    ensures Without(store, host, {}) == map k | k in store && k.host != host :: store[k]
  {
  }

  lemma WithoutOne<V>(store: map<Key, Entry<V>>, host: string, left: set<Key>, k: Key)
    requires k in left && k in store && k.host == host
    ensures Without(store, host, left) - {k} == Without(store, host, left - {k})
    ensures |Without(store, host, left - {k})| == |Without(store, host, left)| - 1
  {
    SizeWithout(Without(store, host, left), k);
  }

  lemma DropHolds<V(!new)>(store: map<Key, Entry<V>>, next: map<Key, Entry<V>>, host: string)
    requires next == map k | k in store && k.host != host :: store[k]
    ensures forall k :: Fetch(next, k) == HeldAfter(Fetch(store, k), Call.DropHost(host), k)
  {
  }

  lemma {:induction false} NextCount<V>(log: seq<Call<V>>, c: Call<V>, p: Call<V> -> bool)
    ensures CountOf(log + [c], p) == CountOf(log, p) + if p(c) then 1 else 0
  {
    assert (log + [c])[..|log|] == log;
  }

  class Cache<V(!new)> {
    var store: map<Key, Entry<V>>
    var hits: nat
    var misses: nat
    var writes: nat
    var invalidations: nat
    ghost var log: seq<Call<V>>

    ghost predicate Valid()
      reads this
    {
      && Represents(store, log)
      && hits + misses == CountOf(log, IsGet())
      && writes == CountOf(log, IsWrite())
    }

    constructor ()
      ensures Valid() && log == []
    {
      store, log := map[], [];
      hits, misses, writes, invalidations := 0, 0, 0, 0;
    }

    /** `get`: the answer is what the history says, unless the entry was asked for too late
        before; an expired entry is removed on the way. */
    method Get(key: Key, now: real) returns (r: Option<V>)
      requires Valid()
      modifies this
      ensures Valid() && log == old(log) + [Call.Get(key, now)]
      ensures r == if AskedTooLate(old(log), key) then None else Expected(old(log), key, now)
      ensures r.Some? ==> hits == old(hits) + 1 && misses == old(misses)
      ensures r.None? ==> hits == old(hits) && misses == old(misses) + 1
      ensures writes == old(writes) && invalidations == old(invalidations)
    {
      ghost var c := Call<V>.Get(key, now);
      NextCount(log, c, IsGet());
      NextCount(log, c, IsWrite());
      assert Fetch(store, key) == Remaining(log, key);
      if key !in store {
        misses := misses + 1;
        r := None;
      } else if store[key].expires <= now {
        store := store - {key};
        misses := misses + 1;
        r := None;
      } else {
        hits := hits + 1;
        r := Some(store[key].result);
      }
      RepresentsNext(old(store), store, log, c);
      log := log + [c];
    }

    /** `set`: nothing happens without a positive lifetime. */
    method Put(key: Key, result: V, ttl: real, now: real)
      requires Valid()
      modifies this
      ensures Valid() && log == old(log) + [Call.Put(key, result, ttl, now)]
      ensures hits == old(hits) && misses == old(misses) && invalidations == old(invalidations)
      ensures writes == old(writes) + if ttl > 0.0 then 1 else 0
    {
      ghost var c := Call<V>.Put(key, result, ttl, now);
      NextCount(log, c, IsGet());
      NextCount(log, c, IsWrite());
      if ttl <= 0.0 {
        RepresentsNext(store, store, log, c);
        log := log + [c];
        return;
      }
      PutHolds(store, key, result, ttl, now);
      RepresentsNext(store, store[key := Entry(now + ttl, result)], log, c);
      store := store[key := Entry(now + ttl, result)];
      writes := writes + 1;
      log := log + [c];
    }

    /** `invalidate_host` */
    method InvalidateHost(host: string)
      requires Valid()
      modifies this
      ensures Valid() && log == old(log) + [Call.DropHost(host)]
      ensures store == map k | k in old(store) && k.host != host :: old(store)[k]
      ensures invalidations == old(invalidations) + (|old(store)| - |store|)
      ensures hits == old(hits) && misses == old(misses) && writes == old(writes)
    {
      ghost var c := Call<V>.DropHost(host);
      NextCount(log, c, IsGet());
      NextCount(log, c, IsWrite());
      var keys := set k | k in store && k.host == host;
      var left := keys;
      assert Without(store, host, keys) == store;
      while left != {}
        invariant left <= keys && store == Without(old(store), host, left)
        invariant |store| == |old(store)| - (|keys| - |left|)
        invariant log == old(log) && hits == old(hits) && misses == old(misses) && writes == old(writes)
        invariant invalidations == old(invalidations)
      {
        var k :| k in left;
        WithoutOne(old(store), host, left, k);
        store := store - {k};
        left := left - {k};
      }
      if keys != {} {
        invalidations := invalidations + |keys|;
      }
      NoneLeft(old(store), host);
      DropHolds(old(store), store, host);
      RepresentsNext(old(store), store, log, c);
      log := log + [c];
    }

    /** `invalidate_all` */
    method InvalidateAll()
      requires Valid()
      modifies this
      ensures Valid() && log == old(log) + [Call.DropAll] && store == map[]
      ensures invalidations == old(invalidations) + |old(store)|
      ensures hits == old(hits) && misses == old(misses) && writes == old(writes)
    {
      ghost var c := Call<V>.DropAll;
      NextCount(log, c, IsGet());
      NextCount(log, c, IsWrite());
      invalidations := invalidations + |store|;
      store := map[];
      RepresentsNext(old(store), store, log, c);
      log := log + [c];
    }

    /** The numbers of `stats`. Expired entries that nobody asked for are counted, but not as live. */
    method Stats(now: real) returns (entries: nat, live: nat, total: nat)
      requires Valid()
      ensures entries == |store| && total == CountOf(log, IsGet())
      ensures live == |LiveKeys(store, now)|
      ensures forall k :: k in LiveKeys(store, now) <==> Live(Remaining(log, k), now)
    {
      entries := |store|;
      live := |LiveKeys(store, now)|;
      total := hits + misses;
      forall k ensures k in LiveKeys(store, now) <==> Live(Remaining(log, k), now) {
        assert Fetch(store, k) == Remaining(log, k);
      }
    }
  }

  function LiveKeys<V>(store: map<Key, Entry<V>>, now: real): set<Key> {
    set k | k in store && store[k].expires > now
  }

  lemma SizeWithout<V>(store: map<Key, Entry<V>>, k: Key)
    requires k in store
    ensures |store - {k}| == |store| - 1
  {
    assert (store - {k}).Keys == store.Keys - {k};
    assert |store.Keys| == |store| && |(store - {k}).Keys| == |store - {k}|;
  }

  // -------------------------------------------------------- removal is not seen

  /** No call was made after `now`. */
  ghost predicate Past<V>(log: seq<Call<V>>, now: real) {
    forall i :: 0 <= i < |log| && log[i].Get? ==> log[i].at <= now
  }

  /** An entry that was asked for too late is still too late: when the clock has not gone
      back, removing it on the way makes no difference to any answer. */
  lemma {:induction false} TooLateStaysTooLate<V>(log: seq<Call<V>>, key: Key, now: real)
    requires Past(log, now) && AskedTooLate(log, key)
    ensures Expected(log, key, now) == None
  {
    var n := |log| - 1;
    if AskedTooLate(log[..n], key) {
      TooLateStaysTooLate(log[..n], key, now);
    }
  }

  /** Call `i` has asked for the entry that the key still has in the history, after that had expired. */
  ghost predicate AskedLateAt<V>(log: seq<Call<V>>, key: Key, i: int) {
    && 0 <= i < |log| && log[i].Get? && log[i].key == key
    && (forall j :: i < j < |log| ==> !Drops(log[j], key) && !Sets(log[j], key))
    && LastSet(log, key).Some? && LastSet(log, key).value.expires <= log[i].at
  }

  lemma LateEarlier<V>(log: seq<Call<V>>, key: Key, i: nat)
    requires i < |log| - 1
    ensures AskedLateAt(log, key, i) <==>
            var c := log[|log| - 1]; !Drops(c, key) && !Sets(c, key) && AskedLateAt(log[..|log| - 1], key, i)
  {
    var n := |log| - 1;
    assert forall j :: 0 <= j < n ==> log[..n][j] == log[j];
  }

  lemma {:induction false} AskedTooLateIff<V>(log: seq<Call<V>>, key: Key)
    ensures AskedTooLate(log, key) <==> exists i :: AskedLateAt(log, key, i)
  {
    if log != [] {
      var n := |log| - 1;
      AskedTooLateIff(log[..n], key);
      if i :| AskedLateAt(log, key, i) && i < n {
        LateEarlier(log, key, i);
      }
      if AskedTooLate(log, key) && AskedTooLate(log[..n], key) {
        var i :| AskedLateAt(log[..n], key, i);
        LateEarlier(log, key, i);
      } else if AskedTooLate(log, key) {
        assert AskedLateAt(log, key, n);
      }
    }
  }

  /** The answer of `get` agrees with the history exactly when nobody has asked for the entry at a time at
      or after its expiry that lies in the future of this call: a disagreement takes a clock that went back. */
  lemma {:induction false} AnswerIsExpectedIff<V>(log: seq<Call<V>>, key: Key, now: real)
    ensures (if AskedTooLate(log, key) then None else Expected(log, key, now)) == Expected(log, key, now) <==>
            !(exists i :: AskedLateAt(log, key, i) && now < LastSet(log, key).value.expires <= log[i].at)
    ensures Past(log, now) ==>
            (if AskedTooLate(log, key) then None else Expected(log, key, now)) == Expected(log, key, now)
  {
    AskedTooLateIff(log, key);
    if AskedTooLate(log, key) && Live(LastSet(log, key), now) {
      var i :| AskedLateAt(log, key, i);
      assert now < LastSet(log, key).value.expires <= log[i].at;
    }
    if Past(log, now) && AskedTooLate(log, key) {
      TooLateStaysTooLate(log, key, now);
    }
  }

  /** A clock that goes back loses an entry: asked for once after it has expired, it is not
      found again at a time at which it is still alive. */
  lemma ClockGoingBackLosesEntry<V>(log: seq<Call<V>>, put: Call<V>, key: Key, late: real, early: real)
    requires Sets(put, key) && early < put.at + put.ttl <= late
    ensures var asked := log + [put] + [Call.Get(key, late)];
            Remaining(asked, key) == None && Expected(asked, key, early) == Some(put.result)
  {
    NextCall(log, put, key);
    NextCall(log + [put], Call.Get(key, late), key);
    var asked := log + [put] + [Call<V>.Get(key, late)];
    assert asked[..|log| + 1] == log + [put];
    assert (log + [put])[..|log|] == log;
  }
}
