/** Value types shared by the model: an optional value (Kotlin's nullable
    types) and the insertion-ordered map that Kotlin's `mutableMapOf` and
    `associateBy` build (a LinkedHashMap), written as a list of key/value
    pairs so that its iteration order is part of the value. */
module Collections {

  datatype Option<+T> = None | Some(value: T)

  /** A LinkedHashMap keyed by permission names: entries in insertion order. */
  type OrderedMap<V> = seq<(string, V)>

  /** The key set, `m.keys`. */
  function Keys<V>(m: OrderedMap<V>): set<string> {
    if m == [] then {} else {m[0].0} + Keys(m[1..])
  }

  /** The keys in iteration order, `m.keys.toList()`. */
  function KeyList<V>(m: OrderedMap<V>): seq<string> {
    if m == [] then [] else [m[0].0] + KeyList(m[1..])
  }

  /** Every key occurs once, as in any Kotlin map. */
  predicate DistinctKeys<V>(m: OrderedMap<V>) {
    m == [] || (m[0].0 !in Keys(m[1..]) && DistinctKeys(m[1..]))
  }

  /** `m[k]`: the value stored under `k`, or None when `k` is absent. */
  function Get<V>(m: OrderedMap<V>, k: string): (r: Option<V>)
    ensures r.None? <==> k !in Keys(m)
    ensures r.Some? ==> (k, r.value) in m
  {
    if m == [] then None
    else if m[0].0 == k then Some(m[0].1)
    else Get(m[1..], k)
  }

  /** `m[k] = v`: an existing key keeps its position and takes the new value;
      a new key is appended at the end of the iteration order. */
  function Put<V>(m: OrderedMap<V>, k: string, v: V): OrderedMap<V> {
    if m == [] then [(k, v)]
    else if m[0].0 == k then [(k, v)] + m[1..]
    else [m[0]] + Put(m[1..], k, v)
  }

  /** After `m[k] = v` the key set gains `k`, `k` maps to `v` and every other
      key keeps its value. */
  lemma {:induction false} PutLookup<V>(m: OrderedMap<V>, k: string, v: V)
    ensures Keys(Put(m, k, v)) == Keys(m) + {k}
    ensures Get(Put(m, k, v), k) == Some(v)
    ensures forall k' :: k' != k ==> Get(Put(m, k, v), k') == Get(m, k')
  {
    var r := Put(m, k, v);
    if m != [] {
      if m[0].0 != k {
        PutLookup(m[1..], k, v);
        assert r[1..] == Put(m[1..], k, v);
      } else {
        assert r[1..] == m[1..];
      }
    }
  }

  /** `m[k] = v` on a key already present keeps the iteration order. */
  lemma {:induction false} PutExisting<V>(m: OrderedMap<V>, k: string, v: V)
    requires k in Keys(m)
    ensures KeyList(Put(m, k, v)) == KeyList(m)
  {
    if m[0].0 != k {
      PutExisting(m[1..], k, v);
      assert Put(m, k, v)[1..] == Put(m[1..], k, v);
    } else {
      assert Put(m, k, v)[1..] == m[1..];
    }
  }

  /** `m[k] = v` on a new key appends it last. */
  lemma {:induction false} PutNew<V>(m: OrderedMap<V>, k: string, v: V)
    requires k !in Keys(m)
    ensures Put(m, k, v) == m + [(k, v)]
  {
    if m != [] {
      PutNew(m[1..], k, v);
      assert m == [m[0]] + m[1..];
    }
  }

  /** `m[k] = v` keeps the keys distinct. */
  lemma {:induction false} PutDistinct<V>(m: OrderedMap<V>, k: string, v: V)
    requires DistinctKeys(m)
    ensures DistinctKeys(Put(m, k, v))
  {
    if m != [] && m[0].0 != k {
      PutDistinct(m[1..], k, v);
      PutLookup(m[1..], k, v);
      assert Put(m, k, v)[1..] == Put(m[1..], k, v);
    } else if m != [] {
      assert Put(m, k, v)[1..] == m[1..];
    }
  }
}
