/**
 * PHP arrays with string keys, as the builder uses them: an insertion-ordered
 * list of (key, value) entries.  Assigning `$a[k] = v` replaces the value of an
 * existing key where it stands and appends a new key at the end.
 */
module PhpArrays {
  import opened PhpValues

  type Entries<K, V> = seq<(K, V)>

  /** No key occurs twice; every PHP array has this shape. */
  predicate DistinctKeys<K(==), V>(m: Entries<K, V>) {
    forall i, j :: 0 <= i < j < |m| ==> m[i].0 != m[j].0
  }

  /** Position of the first entry with key `k`, or `|m|` when there is none. */
  function Find<K(==), V>(m: Entries<K, V>, k: K): (i: nat)
    ensures i <= |m|
    ensures i < |m| ==> m[i].0 == k
    ensures forall j :: 0 <= j < i ==> m[j].0 != k
  {
    if |m| == 0 then 0
    else if m[0].0 == k then 0
    else 1 + Find(m[1..], k)
  }

  /** `$m[k]` read as a lookup: the value stored under `k`, if any. */
  function Get<K(==), V>(m: Entries<K, V>, k: K): Option<V> {
    var i := Find(m, k);
    if i < |m| then Some(m[i].1) else None
  }

  /** `$m[k] = v`. */
  function Put<K(==), V>(m: Entries<K, V>, k: K, v: V): Entries<K, V> {
    var i := Find(m, k);
    if i < |m| then m[i := (k, v)] else m + [(k, v)]
  }

  /** An existing key keeps its position and only its value changes. */
  lemma PutExisting<K, V>(m: Entries<K, V>, k: K, v: V, i: nat)
    requires DistinctKeys(m) && i < |m| && m[i].0 == k
    ensures Put(m, k, v) == m[i := (k, v)]
  {
    assert Find(m, k) == i;
  }

  /**
   * `$m[k] = v` on an array with distinct keys: an existing key keeps its
   * position and takes the new value, a new key goes last.
   */
  lemma PutPlacement<K, V>(m: Entries<K, V>, k: K, v: V)
    requires DistinctKeys(m)
    ensures forall i :: 0 <= i < |m| && m[i].0 == k ==> Put(m, k, v) == m[i := (k, v)]
    ensures Get(m, k).None? ==> Put(m, k, v) == m + [(k, v)]
  {
    forall i | 0 <= i < |m| && m[i].0 == k ensures Put(m, k, v) == m[i := (k, v)] {
      PutExisting(m, k, v, i);
    }
  }

  /** Every entry after an assignment is an old entry or the new one. */
  lemma PutEntries<K, V>(m: Entries<K, V>, k: K, v: V)
    ensures (k, v) in Put(m, k, v)
    ensures forall e :: e in Put(m, k, v) ==> e in m || e == (k, v)
    ensures |m| <= |Put(m, k, v)| <= |m| + 1
  {
    var r := Put(m, k, v);
    var i := Find(m, k);
    if i < |m| {
      assert r[i] == (k, v);
      forall e | e in r ensures e in m || e == (k, v) {
        var j :| 0 <= j < |r| && r[j] == e;
        if j != i { assert e == m[j]; }
      }
    } else {
      assert r[|m|] == (k, v);
    }
  }

  /** Assignment keeps the keys distinct. */
  lemma PutDistinct<K, V>(m: Entries<K, V>, k: K, v: V)
    requires DistinctKeys(m)
    ensures DistinctKeys(Put(m, k, v))
  {
  }

  /** Assignment behaves like an update of a dictionary: only the key `k` reads differently. */
  lemma GetPut<K, V>(m: Entries<K, V>, k: K, v: V, k': K)
    ensures Get(Put(m, k, v), k') == if k' == k then Some(v) else Get(m, k')
  {
    var r := Put(m, k, v);
    var i := Find(m, k);
    var j := Find(m, k');
    var j' := Find(r, k');
    if k' == k {
      if i < |m| {
        assert r[i].0 == k;
        assert j' == i;
      } else {
        assert r[|m|].0 == k;
        assert j' == |m|;
      }
    } else {
      assert forall n :: 0 <= n < |m| ==> r[n].0 == m[n].0;
      if j < |m| {
        assert r[j].0 == k';
        assert j' == j;
      } else {
        assert j' == |r|;
      }
    }
  }

  /** Re-assigning the value a key already holds leaves the array as it was. */
  lemma PutSameValue<K, V>(m: Entries<K, V>, k: K, v: V)
    requires Get(m, k) == Some(v)
    ensures Put(m, k, v) == m
  {
    var i := Find(m, k);
    assert m[i] == (k, v);
  }
}
