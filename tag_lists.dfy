/** A registry from tag to the list of things tracked under it, as `runningTasks`
    (ATaskExecutor) and `runnablesMap` (AMainThreadExecutor) keep it: lists are created
    on first use and a tag is dropped as soon as its list becomes empty. */
module TagLists {
  import opened SeqOps

  /** The invariant both registries keep: no tag maps to an empty list. */
  predicate NoEmptyEntries<K, V>(m: map<K, seq<V>>)
  {
    forall k :: k in m ==> m[k] != []
  }

  /** The list under `k`; a missing list reads as empty. */
  function ListOf<K, V>(m: map<K, seq<V>>, k: K): seq<V>
  {
    if k in m then m[k] else []
  }

  /** Track `v` under `k` once more, creating the list if absent (`get`, `add`, `put`). */
  function Append<K, V>(m: map<K, seq<V>>, k: K, v: V): (r: map<K, seq<V>>)
    ensures r.Keys == m.Keys + {k}
    ensures ListOf(r, k) == ListOf(m, k) + [v]
    ensures forall k' :: k' in m && k' != k ==> r[k'] == m[k']
    ensures NoEmptyEntries(m) ==> NoEmptyEntries(r)
  {
    m[k := ListOf(m, k) + [v]]
  }

  /** Track `v` under `k` unless it is already tracked there (the `contains` check of postDelayed). */
  function AppendIfAbsent<K, V(==)>(m: map<K, seq<V>>, k: K, v: V): (r: map<K, seq<V>>)
    ensures r.Keys == m.Keys + {k}
    ensures forall k' :: k' in m && k' != k ==> r[k'] == m[k']
    ensures ListOf(r, k) == if v in ListOf(m, k) then ListOf(m, k) else ListOf(m, k) + [v]
    ensures v in r[k] && multiset(r[k])[v] == if v in ListOf(m, k) then multiset(ListOf(m, k))[v] else 1
    ensures NoEmptyEntries(m) ==> NoEmptyEntries(r)
  {
    m[k := if v in ListOf(m, k) then ListOf(m, k) else ListOf(m, k) + [v]]
  }

  /** Remove the first `v` tracked under `k` and drop `k` if its list is then empty; a missing
      list is left alone. */
  function RemoveOne<K, V(==)>(m: map<K, seq<V>>, k: K, v: V): (r: map<K, seq<V>>)
    ensures k !in m ==> r == m
    ensures ListOf(r, k) == RemoveFirst(ListOf(m, k), v)
    ensures k in r <==> k in m && RemoveFirst(m[k], v) != []
    ensures r.Keys - {k} == m.Keys - {k}
    ensures forall k' :: k' in m && k' != k ==> k' in r && r[k'] == m[k']
    ensures NoEmptyEntries(m) ==> NoEmptyEntries(r)
  {
    if k !in m then m
    else
      var rest := RemoveFirst(m[k], v);
      if rest == [] then m - {k} else m[k := rest]
  }

  /** Tracking a new `v` and removing it again restores the registry exactly, including the
      absence of a tag that had no list. */
  lemma AppendThenRemoveOne<K, V>(m: map<K, seq<V>>, k: K, v: V)
    requires NoEmptyEntries(m)
    requires v !in ListOf(m, k)
    ensures RemoveOne(Append(m, k, v), k, v) == m
  {
    var a := Append(m, k, v);
    RemoveFirstOfAppended(ListOf(m, k), v);
    assert a[k] == ListOf(m, k) + [v];
    var r := RemoveOne(a, k, v);
    if k in m {
      assert r == a[k := ListOf(m, k)];
    } else {
      assert r == a - {k};
    }
    assert forall k' :: k' in r <==> k' in m;
  }

  /** Removing one `v` takes exactly one occurrence of it out of the tag's list. */
  lemma RemoveOneMultiset<K, V>(m: map<K, seq<V>>, k: K, v: V)
    ensures multiset(ListOf(RemoveOne(m, k, v), k)) == multiset(ListOf(m, k)) - multiset{v}
  {
    RemoveFirstMultiset(ListOf(m, k), v);
  }
}
