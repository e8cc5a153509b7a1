/**
 * Maps from a key to a set of values, updated the way src/imports_info/mod.rs
 * updates its `HashMap<_, HashSet<_>>` fields: `entry(k).or_default()` then
 * `insert` or `remove`. A key without an entry reads as the empty set, as
 * the queries that fall back on an empty set do.
 */
module Adjacency {
  /** The values stored under `k`; nothing when `k` has no entry. */
  function Get<K(!new), V(!new)>(m: map<K, set<V>>, k: K): set<V>
  {
    if k in m then m[k] else {}
  }

  /** `m.entry(k).or_default().insert(v)`: `k` gets an entry that now holds `v`. */
  function Insert<K(!new), V(!new)>(m: map<K, set<V>>, k: K, v: V): (r: map<K, set<V>>)
    ensures r.Keys == m.Keys + {k}
    ensures forall x, y :: y in Get(r, x) <==> y in Get(m, x) || (x == k && y == v)
  {
    m[k := Get(m, k) + {v}]
  }

  /**
   * `if m.contains_key(&k) { m.entry(k).or_default().remove(&v) }`: the pair
   * is gone, no entry is created, every other pair stays.
   */
  function Remove<K(!new), V(!new)>(m: map<K, set<V>>, k: K, v: V): (r: map<K, set<V>>)
    ensures r.Keys == m.Keys
    ensures forall x, y :: y in Get(r, x) <==> y in Get(m, x) && !(x == k && y == v)
  {
    if k in m then m[k := m[k] - {v}] else m
  }

  /** `m.entry(k).or_default()` for each of `ks`: the keys grow, no pair changes. */
  function WithDefaults<K(!new), V(!new)>(m: map<K, set<V>>, ks: set<K>): (r: map<K, set<V>>)
    ensures r.Keys == m.Keys + ks
    ensures forall x :: Get(r, x) == Get(m, x)
  {
    map x | x in m.Keys + ks :: Get(m, x)
  }

  /** The reverse map holds exactly the reversed pairs of the forward map. */
  ghost predicate Mirrored<K(!new)>(fwd: map<K, set<K>>, rev: map<K, set<K>>)
  {
    forall f, t :: t in Get(fwd, f) <==> f in Get(rev, t)
  }

  /** A metadata entry exists for a pair exactly when the pair is stored. */
  ghost predicate Annotated<K(!new), V(!new), M>(m: map<K, set<V>>, meta: map<(K, V), M>)
  {
    forall k, v :: (k, v) in meta <==> v in Get(m, k)
  }

  /** Inserting a pair and its reverse keeps the two maps mirrored. */
  lemma InsertMirrored<K(!new)>(fwd: map<K, set<K>>, rev: map<K, set<K>>, f: K, t: K)
    requires Mirrored(fwd, rev)
    ensures Mirrored(Insert(fwd, f, t), Insert(rev, t, f))
  {
  }

  /**
   * Removing a pair and its reverse keeps the maps mirrored, even when only
   * one side has an entry to remove from.
   */
  lemma RemoveMirrored<K(!new)>(fwd: map<K, set<K>>, rev: map<K, set<K>>, f: K, t: K)
    requires Mirrored(fwd, rev)
    ensures Mirrored(Remove(fwd, f, t), Remove(rev, t, f))
  {
  }

  lemma WithDefaultsMirrored<K(!new)>(fwd: map<K, set<K>>, rev: map<K, set<K>>, ks: set<K>)
    requires Mirrored(fwd, rev)
    ensures Mirrored(WithDefaults(fwd, ks), WithDefaults(rev, ks))
  {
  }

  /** Recording the metadata of an inserted pair keeps every pair annotated. */
  lemma InsertAnnotated<K(!new), V(!new), M>(m: map<K, set<V>>, meta: map<(K, V), M>, k: K, v: V, x: M)
    requires Annotated(m, meta)
    ensures Annotated(Insert(m, k, v), meta[(k, v) := x])
  {
  }

  /** Dropping the metadata of a removed pair keeps every pair annotated. */
  lemma RemoveAnnotated<K(!new), V(!new), M>(m: map<K, set<V>>, meta: map<(K, V), M>, k: K, v: V)
    requires Annotated(m, meta)
    ensures Annotated(Remove(m, k, v), meta - {(k, v)})
  {
  }

  lemma WithDefaultsAnnotated<K(!new), V(!new), M>(m: map<K, set<V>>, meta: map<(K, V), M>, ks: set<K>)
    requires Annotated(m, meta)
    ensures Annotated(WithDefaults(m, ks), meta)
  {
  }

  /** `remove` of every pair of `s`, in any order: the keys stay, the listed pairs go. */
  function RemoveAll<K(!new), V(!new)>(m: map<K, set<V>>, s: set<(K, V)>): (r: map<K, set<V>>)
    ensures r.Keys == m.Keys
    ensures forall x, y :: y in Get(r, x) <==> y in Get(m, x) && (x, y) !in s
  {
    map k | k in m :: set v | v in m[k] && (k, v) !in s
  }

  /** The pairs of `s` read backwards. */
  function Flip<K(==,!new), V(==,!new)>(s: set<(K, V)>): (r: set<(V, K)>)
    ensures forall x, y :: (y, x) in r <==> (x, y) in s
  {
    set p | p in s :: (p.1, p.0)
  }

  /** Removing one more pair extends the removed set by that pair. */
  lemma RemoveAllStep<K(!new), V(!new)>(m: map<K, set<V>>, s: set<(K, V)>, k: K, v: V)
    ensures Remove(RemoveAll(m, s), k, v) == RemoveAll(m, s + {(k, v)})
  {
    var a, b := Remove(RemoveAll(m, s), k, v), RemoveAll(m, s + {(k, v)});
    forall x | x in a
      ensures a[x] == b[x]
    {
      assert Get(a, x) == Get(b, x);
    }
  }

  lemma FlipStep<K(!new), V(!new)>(s: set<(K, V)>, k: K, v: V)
    ensures Flip(s + {(k, v)}) == Flip(s) + {(v, k)}
  {
    forall q: (V, K)
      ensures q in Flip(s + {(k, v)}) <==> q in Flip(s) + {(v, k)}
    {
      assert q == (q.0, q.1);
    }
  }

  lemma FlipNone<K(!new), V(!new)>()
    ensures Flip<K, V>({}) == {}
  {
  }

  /** Removing nothing changes nothing. */
  lemma RemoveNone<K(!new), V(!new)>(m: map<K, set<V>>)
    ensures RemoveAll(m, {}) == m
  {
    forall k | k in m
      ensures RemoveAll(m, {})[k] == m[k]
    {
      assert Get(RemoveAll(m, {}), k) == Get(m, k);
    }
  }

  /** `insert` of every value of `vs` under `k`, in any order. */
  function InsertAll<K(!new), V(!new)>(m: map<K, set<V>>, k: K, vs: set<V>): (r: map<K, set<V>>)
    ensures r.Keys == m.Keys + {k}
    ensures forall x, y :: y in Get(r, x) <==> y in Get(m, x) || (x == k && y in vs)
  {
    m[k := Get(m, k) + vs]
  }

  /** `insert` of `v` under every key of `ks`, in any order: the reverse of `InsertAll`. */
  function InsertInto<K(!new), V(!new)>(m: map<K, set<V>>, ks: set<K>, v: V): (r: map<K, set<V>>)
    ensures r.Keys == m.Keys + ks
    ensures forall x, y :: y in Get(r, x) <==> y in Get(m, x) || (x in ks && y == v)
  {
    map x | x in m.Keys + ks :: if x in ks then Get(m, x) + {v} else m[x]
  }

  /** Inserting into a key that already has an entry with nothing to insert changes nothing. */
  lemma InsertAllNone<K(!new), V(!new)>(m: map<K, set<V>>, k: K)
    requires k in m
    ensures InsertAll(m, k, {}) == m
  {
    assert m[k] + {} == m[k];
  }

  lemma InsertIntoNone<K(!new), V(!new)>(m: map<K, set<V>>, v: V)
    ensures InsertInto(m, {}, v) == m
  {
  }

  /** One more `insert` under `k` extends the inserted set by its value. */
  lemma InsertAllStep<K(!new), V(!new)>(m: map<K, set<V>>, k: K, vs: set<V>, v: V)
    ensures Insert(InsertAll(m, k, vs), k, v) == InsertAll(m, k, vs + {v})
  {
    assert Get(m, k) + vs + {v} == Get(m, k) + (vs + {v});
  }

  lemma InsertIntoStep<K(!new), V(!new)>(m: map<K, set<V>>, ks: set<K>, v: V, t: K)
    ensures Insert(InsertInto(m, ks, v), t, v) == InsertInto(m, ks + {t}, v)
  {
    var a, b := Insert(InsertInto(m, ks, v), t, v), InsertInto(m, ks + {t}, v);
    forall x | x in a
      ensures a[x] == b[x]
    {
      assert Get(a, x) == Get(b, x);
    }
  }

  /** Updating the right operand of a merge updates the merge. */
  lemma MergeUpdate<K(!new), V(!new)>(a: map<K, V>, b: map<K, V>, k: K, x: V)
    ensures (a + b)[k := x] == a + b[k := x]
  {
  }

  /** The keys of the pairs of `s`. */
  function Firsts<K(==,!new), V(==,!new)>(s: set<(K, V)>): (r: set<K>)
    ensures forall k :: k in r <==> exists v :: (k, v) in s
  {
    set p | p in s :: p.0
  }

  /** `insert` of every pair of `s`, in any order. */
  function AddAll<K(==,!new), V(==,!new)>(m: map<K, set<V>>, s: set<(K, V)>): (r: map<K, set<V>>)
    ensures r.Keys == m.Keys + Firsts(s)
    ensures forall x, y :: y in Get(r, x) <==> y in Get(m, x) || (x, y) in s
  {
    map x | x in m.Keys + Firsts(s) :: Get(m, x) + set p | p in s && p.0 == x :: p.1
  }

  lemma AddAllNone<K(!new), V(!new)>(m: map<K, set<V>>)
    ensures AddAll(m, {}) == m
  {
    forall k | k in m
      ensures AddAll(m, {})[k] == m[k]
    {
      assert Get(AddAll(m, {}), k) == Get(m, k);
    }
  }

  /** One more `insert` extends the inserted pairs by one. */
  lemma AddAllStep<K(!new), V(!new)>(m: map<K, set<V>>, s: set<(K, V)>, k: K, v: V)
    ensures Insert(AddAll(m, s), k, v) == AddAll(m, s + {(k, v)})
  {
    FirstsStep(s, k, v);
    SameEntries(Insert(AddAll(m, s), k, v), AddAll(m, s + {(k, v)}));
  }

  /** Two maps with the same keys and the same pairs are equal. */
  lemma SameEntries<K(!new), V(!new)>(a: map<K, set<V>>, b: map<K, set<V>>)
    requires a.Keys == b.Keys
    requires forall x, y :: y in Get(a, x) <==> y in Get(b, x)
    ensures a == b
  {
    forall x | x in a
      ensures a[x] == b[x]
    {
      assert Get(a, x) == Get(b, x);
    }
  }

  lemma FirstsStep<K(!new), V(!new)>(s: set<(K, V)>, k: K, v: V)
    ensures Firsts(s + {(k, v)}) == Firsts(s) + {k}
  {
    assert (k, v) in s + {(k, v)};
  }

  /** Inserting a batch under one key that already has an entry extends the inserted pairs by that batch. */
  lemma AddAllInsertAll<K(!new), V(!new)>(m: map<K, set<V>>, s: set<(K, V)>, k: K, vs: set<V>, s': set<(K, V)>)
    requires k in m
    requires forall x, y :: (x, y) in s' <==> (x, y) in s || (x == k && y in vs)
    ensures InsertAll(AddAll(m, s), k, vs) == AddAll(m, s')
  {
    var a, b := InsertAll(AddAll(m, s), k, vs), AddAll(m, s');
    FirstsGrow(s, k, vs, s');
    assert a.Keys == b.Keys;
    InsertAllPairs(m, s, k, vs, s');
    SameEntries(a, b);
  }

  lemma InsertAllPairs<K(!new), V(!new)>(m: map<K, set<V>>, s: set<(K, V)>, k: K, vs: set<V>, s': set<(K, V)>)
    requires forall x, y :: (x, y) in s' <==> (x, y) in s || (x == k && y in vs)
    ensures forall x, y :: y in Get(InsertAll(AddAll(m, s), k, vs), x) <==> y in Get(AddAll(m, s'), x)
  {
  }

  lemma FirstsGrow<K(!new), V(!new)>(s: set<(K, V)>, k: K, vs: set<V>, s': set<(K, V)>)
    requires forall x, y :: (x, y) in s' <==> (x, y) in s || (x == k && y in vs)
    ensures Firsts(s) <= Firsts(s') <= Firsts(s) + {k}
  {
    forall x | x in Firsts(s)
      ensures x in Firsts(s')
    {
      var y :| (x, y) in s;
      assert (x, y) in s';
    }
    forall x | x in Firsts(s') && x != k
      ensures x in Firsts(s)
    {
      var y :| (x, y) in s';
      assert (x, y) in s;
    }
  }
}
