/** Insertion-ordered maps as PHP arrays keep them: (key, value) pairs in order of first
    insertion; assigning an existing key replaces its value and keeps its position. */
module OrderedMaps {
  import opened Wrappers

  type OrderedMap<K, V> = seq<(K, V)>

  function Keys<K, V>(m: OrderedMap<K, V>): (ks: seq<K>)
    ensures |ks| == |m|
  {
    if m == [] then [] else [m[0].0] + Keys(m[1..])
  }

  /** The value stored under `k` (the first pair with that key), if any. */
  function Lookup<K(==), V>(m: OrderedMap<K, V>, k: K): Option<V> {
    if m == [] then None
    else if m[0].0 == k then Some(m[0].1)
    else Lookup(m[1..], k)
  }

  /** `$m[$k] = $v`. */
  function Put<K(==), V>(m: OrderedMap<K, V>, k: K, v: V): (r: OrderedMap<K, V>)
    ensures |m| <= |r| <= |m| + 1
  {
    if m == [] then [(k, v)]
    else if m[0].0 == k then [(k, v)] + m[1..]
    else [m[0]] + Put(m[1..], k, v)
  }

  /** Assignment keeps the existing keys in place and appends a new key at the end; the
      assigned key then maps to `v`, every other key to what it mapped to before, and no
      pair appears that was not there or is not `(k, v)`. */
  lemma {:induction false} PutSpec<K(!new), V(!new)>(m: OrderedMap<K, V>, k: K, v: V)
    ensures Keys(Put(m, k, v)) == if k in Keys(m) then Keys(m) else Keys(m) + [k]
    ensures k !in Keys(m) ==> Put(m, k, v) == m + [(k, v)]
    ensures Lookup(Put(m, k, v), k) == Some(v)
    ensures forall k' :: k' != k ==> Lookup(Put(m, k, v), k') == Lookup(m, k')
    ensures forall p :: p in Put(m, k, v) ==> p in m || p == (k, v)
  {
    if m != [] && m[0].0 != k {
      PutSpec(m[1..], k, v);
      assert m == [m[0]] + m[1..];
      assert Put(m, k, v)[1..] == Put(m[1..], k, v);
    }
  }

  lemma {:induction false} KeysAppend<K, V>(m: OrderedMap<K, V>, n: OrderedMap<K, V>)
    ensures Keys(m + n) == Keys(m) + Keys(n)
  {
    if m == [] {
      assert m + n == n;
    } else {
      assert (m + n)[1..] == m[1..] + n;
      KeysAppend(m[1..], n);
    }
  }
}
