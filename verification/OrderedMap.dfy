/** Ordered maps from offsets, as the sequence of their entries in increasing key order. */
module OrderedMap {
  import opened Wrappers

  datatype Pair<+V> = Pair(key: nat, value: V)

  ghost predicate Sorted<V>(m: seq<Pair<V>>) {
    forall i, j :: 0 <= i < j < |m| ==> m[i].key < m[j].key
  }

  ghost predicate Has<V>(m: seq<Pair<V>>, k: nat, v: V) {
    Pair(k, v) in m
  }

  function Find<V>(m: seq<Pair<V>>, k: nat): (r: Option<V>)
    ensures r.Some? ==> Has(m, k, r.value)
    ensures r.None? ==> forall i :: 0 <= i < |m| ==> m[i].key != k
  {
    if m == [] then None else if m[0].key == k then Some(m[0].value) else Find(m[1..], k)
  }

  /** The position of a key, or the length of the map. */
  function PositionOf<V>(m: seq<Pair<V>>, k: nat): (r: nat)
    ensures r <= |m| && (r < |m| ==> m[r].key == k) && (r == |m| ==> forall i :: 0 <= i < |m| ==> m[i].key != k)
  {
    if m == [] then 0 else if m[0].key == k then 0 else 1 + PositionOf(m[1..], k)
  }

  /** Insertion keeps the order, and keeps the old value of a key that is already there. */
  function Insert<V>(m: seq<Pair<V>>, k: nat, v: V): seq<Pair<V>> {
    if m == [] || k < m[0].key then [Pair(k, v)] + m
    else if k == m[0].key then m
    else [m[0]] + Insert(m[1..], k, v)
  }

  lemma {:induction false} InsertKeys<V>(m: seq<Pair<V>>, k: nat, v: V)
    ensures forall p :: p in Insert(m, k, v) ==> p in m || p == Pair(k, v)
    ensures forall p :: p in m ==> p in Insert(m, k, v)
  {
    if m == [] || k <= m[0].key {
    } else {
      InsertKeys(m[1..], k, v);
      assert m == [m[0]] + m[1..];
    }
  }

  lemma {:induction false} InsertSorted<V>(m: seq<Pair<V>>, k: nat, v: V)
    requires Sorted(m)
    ensures Sorted(Insert(m, k, v))
  {
    if m == [] || k <= m[0].key {
    } else {
      var rest := Insert(m[1..], k, v);
      InsertSorted(m[1..], k, v);
      InsertKeys(m[1..], k, v);
      forall i | 0 <= i < |rest| ensures m[0].key < rest[i].key {
        assert rest[i] in rest;
      }
    }
  }

  /** In an ordered map, every entry is found under its key. */
  lemma FindIs<V>(m: seq<Pair<V>>, i: nat)
    requires Sorted(m) && i < |m|
    ensures Find(m, m[i].key) == Some(m[i].value)
  {
    var r := Find(m, m[i].key);
    if r.Some? {
      var j: nat :| j < |m| && m[j] == Pair(m[i].key, r.value);
      assert i < j ==> m[i].key < m[j].key;
      assert j < i ==> m[j].key < m[i].key;
    }
  }

  /** Looking up after an insertion gives the old value, if there was one, and the new value for the new key. */
  lemma {:induction false} FindInsert<V>(m: seq<Pair<V>>, k: nat, v: V, q: nat)
    requires Sorted(m)
    ensures Find(Insert(m, k, v), q) == if Find(m, q).None? && q == k then Some(v) else Find(m, q)
  {
    if m == [] {
    } else if k < m[0].key {
      assert ([Pair(k, v)] + m)[1..] == m;
      assert forall i :: 0 <= i < |m| ==> k < m[i].key;
    } else if k > m[0].key {
      assert ([m[0]] + Insert(m[1..], k, v))[1..] == Insert(m[1..], k, v);
      FindInsert(m[1..], k, v, q);
    }
  }

  /** A key beyond all others goes to the end. */
  lemma {:induction false} InsertLast<V>(m: seq<Pair<V>>, k: nat, v: V)
    requires forall i :: 0 <= i < |m| ==> m[i].key < k
    ensures Insert(m, k, v) == m + [Pair(k, v)]
  {
    if m != [] {
      InsertLast(m[1..], k, v);
      assert m == [m[0]] + m[1..];
    }
  }
}
