/**
 * Ruby's Hash, as the job document and the failure report use it: an
 * insertion-ordered list of entries. Reading a key that is not there gives
 * nil (`None`); assigning a key that is there replaces its value where it
 * stands, assigning a new key appends it at the end.
 */
module OrderedHash {
  import opened Options

  type Hash<K, V> = seq<(K, V)>

  /** The keys in insertion order (`Hash#keys`). */
  function Keys<K, V>(h: Hash<K, V>): (ks: seq<K>)
    ensures |ks| == |h|
  {
    seq(|h|, i requires 0 <= i < |h| => h[i].0)
  }

  predicate Distinct<T(==)>(s: seq<T>) {
    forall i, j :: 0 <= i < j < |s| ==> s[i] != s[j]
  }

  /** Every Ruby hash has pairwise different keys. */
  predicate UniqueKeys<K(==), V>(h: Hash<K, V>) {
    Distinct(Keys(h))
  }

  /** `h[k]`: the value stored under `k`, or nil. */
  function Get<K(==), V>(h: Hash<K, V>, k: K): (r: Option<V>)
    ensures r.Some? <==> k in Keys(h)
  {
    if |h| == 0 then None
    else
      KeysUnfold(h);
      if h[0].0 == k then Some(h[0].1) else Get(h[1..], k)
  }

  /** The keys of a non-empty hash: the first entry's, then the rest's. */
  lemma KeysUnfold<K, V>(h: Hash<K, V>)
    requires |h| > 0
    ensures Keys(h) == [h[0].0] + Keys(h[1..])
  {
  }

  /** `h[k] = v`. */
  function Put<K(==,!new), V>(h: Hash<K, V>, k: K, v: V): (r: Hash<K, V>)
    ensures Keys(r) == if k in Keys(h) then Keys(h) else Keys(h) + [k]
    ensures forall j :: Get(r, j) == if j == k then Some(v) else Get(h, j)
    ensures UniqueKeys(h) ==> UniqueKeys(r)
  {
    if |h| == 0 then
      ConsFacts((k, v), []);
      assert [(k, v)] + [] == [(k, v)];
      [(k, v)]
    else if h[0].0 == k then
      ConsFacts(h[0], h[1..]);
      ConsFacts((k, v), h[1..]);
      assert [h[0]] + h[1..] == h;
      [(k, v)] + h[1..]
    else
      var tail := Put(h[1..], k, v);
      ConsFacts(h[0], h[1..]);
      ConsFacts(h[0], tail);
      assert [h[0]] + h[1..] == h;
      PutConsKeys(h[0].0, Keys(h[1..]), k);
      KeepsUniqueKeys(Keys(h), k, [h[0].0] + Keys(tail));
      [h[0]] + tail
  }

  /** Unfolding `Keys` and `Get` on a hash with a first entry. */
  lemma ConsFacts<K, V>(e: (K, V), t: Hash<K, V>)
    ensures ([e] + t)[0] == e && ([e] + t)[1..] == t
    ensures Keys([e] + t) == [e.0] + Keys(t)
    ensures forall j :: Get([e] + t, j) == if e.0 == j then Some(e.1) else Get(t, j)
  {
    assert ([e] + t)[1..] == t;
    assert Keys([e] + t) == [e.0] + Keys(t);
  }

  /** A key other than the first is in the list exactly when it is in the rest. */
  lemma PutConsKeys<K>(x: K, ks: seq<K>, k: K)
    requires x != k
    ensures k in [x] + ks <==> k in ks
    ensures [x] + (ks + [k]) == ([x] + ks) + [k]
  {
  }

  /** A key list that gains at most one new key, at the end, stays free of duplicates. */
  lemma KeepsUniqueKeys<K>(ks: seq<K>, k: K, rs: seq<K>)
    requires rs == if k in ks then ks else ks + [k]
    ensures Distinct(ks) ==> Distinct(rs)
  {
    if Distinct(ks) && k !in ks {
      forall i, j | 0 <= i < j < |rs|
        ensures rs[i] != rs[j]
      {
        if j == |ks| {
          assert rs[i] == ks[i];
        }
      }
    }
  }

  /** Assigning a key twice keeps only the second value, in the first one's place. */
  lemma {:induction false} PutPut<K(!new), V>(h: Hash<K, V>, k: K, v1: V, v2: V)
    ensures Put(Put(h, k, v1), k, v2) == Put(h, k, v2)
  {
    if |h| > 0 && h[0].0 != k {
      PutPut(h[1..], k, v1, v2);
      assert Put(h, k, v1)[1..] == Put(h[1..], k, v1);
    }
  }

  /** Assigning a key the value it already holds changes nothing. */
  lemma {:induction false} PutPresent<K(!new), V>(h: Hash<K, V>, k: K, v: V)
    requires Get(h, k) == Some(v)
    ensures Put(h, k, v) == h
  {
    if h[0].0 != k {
      PutPresent(h[1..], k, v);
    }
  }

  /** Assignments to two different keys commute once the first key is present. */
  lemma {:induction false} PutCommute<K(!new), V>(h: Hash<K, V>, a: K, x: V, b: K, y: V)
    requires a != b && a in Keys(h)
    ensures Put(Put(h, a, x), b, y) == Put(Put(h, b, y), a, x)
  {
    KeysUnfold(h);
    if h[0].0 != a && h[0].0 != b {
      PutCommute(h[1..], a, x, b, y);
      assert Put(h, a, x)[1..] == Put(h[1..], a, x);
      assert Put(h, b, y)[1..] == Put(h[1..], b, y);
    } else if h[0].0 == b {
      assert Put(h, a, x)[1..] == Put(h[1..], a, x);
    }
  }

}
