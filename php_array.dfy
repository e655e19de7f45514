/**
 * PHP's associative array as an ordered dictionary: a sequence of key/value
 * entries in which a key appears at most once. Writing an existing key keeps
 * its position, writing a new key appends it, `unset` removes it, and
 * `current()` is the value of the first entry. Iteration order (`foreach`,
 * `array_values`) is the entry order.
 */
module PhpArray {
  import opened Wrappers

  type Dict<K(==), V> = seq<(K, V)>

  function Keys<K(==), V>(d: Dict<K, V>): (ks: seq<K>)
    ensures |ks| == |d|
    ensures forall i :: 0 <= i < |d| ==> ks[i] == d[i].0
  {
    if d == [] then [] else [d[0].0] + Keys(d[1..])
  }

  function Values<K(==), V>(d: Dict<K, V>): (vs: seq<V>)
    ensures |vs| == |d|
    ensures forall i :: 0 <= i < |d| ==> vs[i] == d[i].1
  {
    if d == [] then [] else [d[0].1] + Values(d[1..])
  }

  /** No key occurs twice: the invariant every PHP array keeps. */
  predicate UniqueKeys<K(==), V>(d: Dict<K, V>) {
    forall i, j :: 0 <= i < j < |d| ==> d[i].0 != d[j].0
  }

  /** `$a[$k]` when `array_key_exists($k, $a)`, else None. */
  function Get<K(==), V>(d: Dict<K, V>, k: K): Option<V> {
    if d == [] then None
    else if d[0].0 == k then Some(d[0].1)
    else Get(d[1..], k)
  }

  /** `$a[$k] = $v`: overwrite in place, or append a new entry. */
  function Put<K(==), V>(d: Dict<K, V>, k: K, v: V): Dict<K, V> {
    if d == [] then [(k, v)]
    else if d[0].0 == k then [(k, v)] + d[1..]
    else [d[0]] + Put(d[1..], k, v)
  }

  /** `unset($a[$k])`. */
  function Unset<K(==), V>(d: Dict<K, V>, k: K): Dict<K, V> {
    if d == [] then []
    else if d[0].0 == k then Unset(d[1..], k)
    else [d[0]] + Unset(d[1..], k)
  }

  /** Drop every entry whose value is `v`, as removing a neighbour node does. */
  function RemoveValue<K(==), V(==)>(d: Dict<K, V>, v: V): Dict<K, V> {
    if d == [] then []
    else if d[0].1 == v then RemoveValue(d[1..], v)
    else [d[0]] + RemoveValue(d[1..], v)
  }

  /** `current($a)` on a fresh array: the first value, None (PHP's false) when empty. */
  function First<K(==), V>(d: Dict<K, V>): (r: Option<V>)
    ensures r.Some? <==> |d| > 0
    ensures r.Some? ==> r.value == d[0].1
  {
    if d == [] then None else Some(d[0].1)
  }

  lemma {:induction false} GetIn<K, V>(d: Dict<K, V>, k: K)
    ensures Get(d, k).Some? <==> k in Keys(d)
    ensures Get(d, k).Some? ==> (k, Get(d, k).value) in d
  {
    if d != [] {
      GetIn(d[1..], k);
      assert Keys(d) == [d[0].0] + Keys(d[1..]);
    }
  }

  lemma {:induction false} GetPut<K, V>(d: Dict<K, V>, k: K, v: V, k': K)
    ensures Get(Put(d, k, v), k') == if k' == k then Some(v) else Get(d, k')
  {
    if d != [] && d[0].0 != k {
      GetPut(d[1..], k, v, k');
    }
  }

  lemma {:induction false} KeysPut<K, V>(d: Dict<K, V>, k: K, v: V)
    ensures Keys(Put(d, k, v)) == if k in Keys(d) then Keys(d) else Keys(d) + [k]
  {
    if d != [] && d[0].0 != k {
      KeysPut(d[1..], k, v);
      assert Keys(d) == [d[0].0] + Keys(d[1..]);
    }
  }

  lemma {:induction false} PutUnique<K, V>(d: Dict<K, V>, k: K, v: V)
    requires UniqueKeys(d)
    ensures UniqueKeys(Put(d, k, v))
  {
    var r := Put(d, k, v);
    KeysPut(d, k, v);
    assert Keys(r) == Keys(d) || Keys(r) == Keys(d) + [k];
    forall i, j | 0 <= i < j < |r| ensures r[i].0 != r[j].0 {
      assert Keys(r)[i] == r[i].0 && Keys(r)[j] == r[j].0;
      if j == |d| {
        assert k !in Keys(d);
        assert Keys(r)[i] == Keys(d)[i];
      } else {
        assert Keys(r)[i] == Keys(d)[i] && Keys(r)[j] == Keys(d)[j];
      }
    }
  }

  lemma {:induction false} GetUnset<K, V>(d: Dict<K, V>, k: K, k': K)
    ensures Get(Unset(d, k), k') == if k' == k then None else Get(d, k')
  {
    if d != [] {
      GetUnset(d[1..], k, k');
    }
  }

  /** In a PHP array the first key does not occur again. */
  lemma HeadNotInTail<K, V>(d: Dict<K, V>)
    requires UniqueKeys(d) && d != []
    ensures d[0].0 !in Keys(d[1..])
    ensures UniqueKeys(d[1..])
  {
    forall j | 0 <= j < |d| - 1 ensures Keys(d[1..])[j] != d[0].0 {
      assert Keys(d[1..])[j] == d[j + 1].0;
    }
  }

  lemma {:induction false} UnsetSub<K, V>(d: Dict<K, V>, k: K)
    ensures forall e :: e in Unset(d, k) ==> e in d && e.0 != k
    ensures UniqueKeys(d) ==> UniqueKeys(Unset(d, k))
  {
    if d != [] {
      UnsetSub(d[1..], k);
      if UniqueKeys(d) && d[0].0 != k {
        HeadNotInTail(d);
        var r := Unset(d, k);
        forall j | 0 < j < |r| ensures r[0].0 != r[j].0 {
          assert r[j] in d[1..];
          GetIn(d[1..], r[j].0);
        }
      }
    }
  }

  lemma {:induction false} GetRemoveValue<K, V>(d: Dict<K, V>, v: V, k: K)
    requires UniqueKeys(d)
    ensures Get(RemoveValue(d, v), k) == if Get(d, k) == Some(v) then None else Get(d, k)
    ensures UniqueKeys(RemoveValue(d, v))
    ensures forall e :: e in RemoveValue(d, v) ==> e in d && e.1 != v
  {
    if d != [] {
      HeadNotInTail(d);
      GetRemoveValue(d[1..], v, k);
      if d[0].0 == k {
        GetIn(d[1..], k);
        GetIn(RemoveValue(d[1..], v), k);
      }
      var r := RemoveValue(d, v);
      if d[0].1 != v {
        forall j | 0 < j < |r| ensures r[0].0 != r[j].0 {
          assert r[j] in d[1..];
          GetIn(d[1..], r[j].0);
        }
      }
    }
  }

  lemma {:induction false} PutLength<K, V>(d: Dict<K, V>, k: K, v: V)
    ensures |Put(d, k, v)| == if k in Keys(d) then |d| else |d| + 1
  {
    KeysPut(d, k, v);
  }

  /** `unset` of a key that is not there leaves the array as it was. */
  lemma {:induction false} UnsetAbsent<K, V>(d: Dict<K, V>, k: K)
    requires k !in Keys(d)
    ensures Unset(d, k) == d
  {
    if d != [] {
      assert Keys(d) == [d[0].0] + Keys(d[1..]);
      UnsetAbsent(d[1..], k);
    }
  }

  /** `unset` of a key that is there removes exactly one entry. */
  lemma {:induction false} UnsetLength<K, V>(d: Dict<K, V>, k: K)
    requires UniqueKeys(d) && Get(d, k).Some?
    ensures |Unset(d, k)| == |d| - 1
  {
    HeadNotInTail(d);
    if d[0].0 == k {
      UnsetAbsent(d[1..], k);
    } else {
      UnsetLength(d[1..], k);
    }
  }

  /** Every entry after a write is the written one or was there before. */
  lemma {:induction false} PutElems<K, V>(d: Dict<K, V>, k: K, v: V)
    ensures forall e :: e in Put(d, k, v) ==> e == (k, v) || e in d
  {
    if d != [] && d[0].0 != k {
      PutElems(d[1..], k, v);
    }
  }

  /**
   * Filling `out` in the key order of `d`: storing under the `i`-th key of
   * `d` extends the keys of `out` by that key and keeps them unique.
   */
  lemma PutNextKey<K, V, W>(d: Dict<K, V>, i: nat, out: Dict<K, W>, w: W)
    requires UniqueKeys(d) && i < |d| && Keys(out) == Keys(d[..i]) && UniqueKeys(out)
    ensures Keys(Put(out, d[i].0, w)) == Keys(d[..i + 1]) && UniqueKeys(Put(out, d[i].0, w))
  {
    var before := Keys(d[..i]);
    forall j | 0 <= j < i ensures before[j] != d[i].0 {
      assert before[j] == d[j].0;
    }
    KeysPut(out, d[i].0, w);
    PutUnique(out, d[i].0, w);
    var after := Keys(d[..i + 1]);
    forall j | 0 <= j < i ensures after[j] == before[j] {
      assert after[j] == d[j].0;
    }
    assert after == before + [d[i].0];
  }
}
