/**
 * Python dictionaries remember insertion order, and the application shows
 * alerts in that order.  A dictionary is therefore modelled as a sequence of
 * (key, value) pairs: assigning to an existing key replaces its value where it
 * stands, assigning to a new key appends it.  `ToMap` is the order-free view
 * that Python's `==` on dictionaries compares.
 */
module OrderedDict {
  import opened Wrappers

  type Dict<K, V> = seq<(K, V)>

  /** The keys in iteration order. */
  function Keys<K, V>(d: Dict<K, V>): (ks: seq<K>)
    ensures |ks| == |d|
    ensures forall i :: 0 <= i < |d| ==> ks[i] == d[i].0
  {
    seq(|d|, i requires 0 <= i < |d| => d[i].0)
  }

  /** The values in iteration order. */
  function Values<K, V>(d: Dict<K, V>): (vs: seq<V>)
    ensures |vs| == |d|
    ensures forall i :: 0 <= i < |d| ==> vs[i] == d[i].1
  {
    seq(|d|, i requires 0 <= i < |d| => d[i].1)
  }

  /** What every Python dictionary satisfies: no key twice. */
  ghost predicate DistinctKeys<K, V>(d: Dict<K, V>)
  {
    forall i, j :: 0 <= i < j < |d| ==> d[i].0 != d[j].0
  }

  /** `d.get(k)`. */
  function Get<K(==), V>(d: Dict<K, V>, k: K): Option<V>
  {
    if |d| == 0 then None
    else if d[0].0 == k then Some(d[0].1)
    else Get(d[1..], k)
  }

  /** `d[k] = v`. */
  function Put<K(==), V>(d: Dict<K, V>, k: K, v: V): Dict<K, V>
  {
    if |d| == 0 then [(k, v)]
    else if d[0].0 == k then [(k, v)] + d[1..]
    else [d[0]] + Put(d[1..], k, v)
  }

  /** The dictionary as a mathematical map, forgetting the order. */
  function ToMap<K(==), V>(d: Dict<K, V>): map<K, V>
  {
    if |d| == 0 then map[] else ToMap(d[1..])[d[0].0 := d[0].1]
  }

  /** A key is in the map view exactly when it is one of the keys. */
  lemma {:induction false} ToMapKeys<K, V>(d: Dict<K, V>, k: K)
    ensures k in ToMap(d) <==> k in Keys(d)
  {
    if |d| > 0 {
      ToMapKeys(d[1..], k);
      assert Keys(d) == [d[0].0] + Keys(d[1..]);
    }
  }

  /** Assigning a key changes the map view at that key only. */
  lemma {:induction false} PutToMap<K, V>(d: Dict<K, V>, k: K, v: V)
    ensures ToMap(Put(d, k, v)) == ToMap(d)[k := v]
  {
    if |d| > 0 && d[0].0 != k {
      PutToMap(d[1..], k, v);
    }
  }

  /** A new key goes to the end of the order; an existing key keeps its place. */
  lemma {:induction false} PutKeys<K, V>(d: Dict<K, V>, k: K, v: V)
    ensures Keys(Put(d, k, v)) == if k in Keys(d) then Keys(d) else Keys(d) + [k]
  {
    if |d| > 0 {
      assert Keys(d) == [d[0].0] + Keys(d[1..]);
      if d[0].0 != k {
        PutKeys(d[1..], k, v);
        assert Keys(Put(d, k, v)) == [d[0].0] + Keys(Put(d[1..], k, v));
      } else {
        assert Keys(Put(d, k, v)) == Keys(d);
      }
    }
  }

  /** Assigning a key never duplicates one. */
  lemma PutDistinct<K, V>(d: Dict<K, V>, k: K, v: V)
    requires DistinctKeys(d)
    ensures DistinctKeys(Put(d, k, v))
  {
    var p := Put(d, k, v);
    PutKeys(d, k, v);
    assert Keys(p) == if k in Keys(d) then Keys(d) else Keys(d) + [k];
    forall i, j | 0 <= i < j < |p| ensures p[i].0 != p[j].0 {
      assert p[i].0 == Keys(p)[i] && p[j].0 == Keys(p)[j];
      if k !in Keys(d) && j == |d| {
        assert p[j].0 == k;
        assert Keys(p)[i] == Keys(d)[i];
      }
    }
  }

  /** Every entry after an assignment is the assigned one or was there before. */
  lemma {:induction false} PutEntries<K, V>(d: Dict<K, V>, k: K, v: V)
    ensures forall i :: 0 <= i < |Put(d, k, v)| ==> Put(d, k, v)[i] == (k, v) || Put(d, k, v)[i] in d
  {
    if |d| > 0 && d[0].0 != k {
      PutEntries(d[1..], k, v);
      var p := Put(d, k, v);
      forall i | 0 <= i < |p| ensures p[i] == (k, v) || p[i] in d {
        if i > 0 {
          assert p[i] == Put(d[1..], k, v)[i - 1];
          if p[i] in d[1..] {
            var m :| 0 <= m < |d[1..]| && d[1..][m] == p[i];
            assert d[m + 1] == p[i];
          }
        }
      }
    } else if |d| > 0 {
      var p := Put(d, k, v);
      forall i | 0 <= i < |p| ensures p[i] == (k, v) || p[i] in d {
        if i > 0 { assert p[i] == d[i]; }
      }
    }
  }
}
