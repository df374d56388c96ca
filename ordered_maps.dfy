/**
 * Python's insertion-ordered `dict`: the keys in insertion order beside the
 * mapping itself. Assigning an existing key keeps its position; a new key goes
 * last; `del` removes the key and keeps the order of the others.
 */
module OrderedMaps {

  import opened Wrappers

  datatype OMap<K(==, !new), V> = OMap(keys: seq<K>, values: map<K, V>)

  /** No element is listed twice. */
  predicate Distinct<K(==)>(s: seq<K>) {
    forall i, j :: 0 <= i < j < |s| ==> s[i] != s[j]
  }

  /** The keys are listed once each, and exactly the mapped keys are listed. */
  predicate Valid<K(==, !new), V>(m: OMap<K, V>) {
    Distinct(m.keys)
    && (forall k :: k in m.keys ==> k in m.values)
    && (forall k :: k in m.values ==> k in m.keys)
  }

  function Empty<K(==, !new), V>(): (r: OMap<K, V>)
    ensures Valid(r) && r.values == map[] && r.keys == []
  {
    OMap([], map[])
  }

  /** `d[k] = v`. */
  function Put<K(==, !new), V>(m: OMap<K, V>, k: K, v: V): (r: OMap<K, V>)
    requires Valid(m)
    ensures Valid(r)
    ensures r.values == m.values[k := v]
    ensures k in m.values ==> r.keys == m.keys
    ensures k !in m.values ==> r.keys == m.keys + [k]
  {
    if k in m.values then OMap(m.keys, m.values[k := v])
    else OMap(m.keys + [k], m.values[k := v])
  }

  /** The key order with one key taken out. */
  function Without<K(==, !new)>(keys: seq<K>, k: K): (r: seq<K>)
    ensures forall x :: x in r <==> x in keys && x != k
    ensures |r| <= |keys|
  {
    if |keys| == 0 then []
    else (if keys[0] == k then [] else [keys[0]]) + Without(keys[1..], k)
  }

  /** Taking a key out of a list of distinct keys leaves them distinct. */
  lemma {:induction false} WithoutDistinct<K(!new)>(keys: seq<K>, k: K)
    requires Distinct(keys)
    ensures Distinct(Without(keys, k))
  {
    if |keys| > 0 {
      WithoutDistinct(keys[1..], k);
      var t := Without(keys[1..], k);
      assert keys[0] !in keys[1..];
      assert keys[0] !in t;
      var r := Without(keys, k);
      if keys[0] != k {
        assert r == [keys[0]] + t;
        forall i, j | 0 <= i < j < |r| ensures r[i] != r[j] {
          if i > 0 {
            assert r[i] == t[i - 1] && r[j] == t[j - 1];
          } else {
            assert r[j] == t[j - 1];
          }
        }
      } else {
        assert r == t;
      }
    }
  }

  /** `del d[k]`. */
  function Remove<K(==, !new), V>(m: OMap<K, V>, k: K): (r: OMap<K, V>)
    requires Valid(m)
    ensures Valid(r)
    ensures r.values == m.values - {k}
    ensures r.keys == Without(m.keys, k)
  {
    WithoutDistinct(m.keys, k);
    var r := OMap(Without(m.keys, k), m.values - {k});
    assert forall x :: x in r.keys <==> x in m.keys && x != k;
    r
  }

  /** The first key in insertion order other than `k` (`next((x for x in d if x != k), None)`). */
  function FirstOther<K(==, !new)>(keys: seq<K>, k: K): (r: Option<K>)
    ensures r.Some? ==> r.value in keys && r.value != k
    ensures r.Some? ==> exists i :: 0 <= i < |keys| && keys[i] == r.value
                          && forall j :: 0 <= j < i ==> keys[j] == k
    ensures r.None? <==> forall x :: x in keys ==> x == k
  {
    if |keys| == 0 then None
    else if keys[0] != k then Some(keys[0])
    else
      var r := FirstOther(keys[1..], k);
      if r.Some? then
        var i :| 0 <= i < |keys[1..]| && keys[1..][i] == r.value
                 && forall j :: 0 <= j < i ==> keys[1..][j] == k;
        assert keys[i + 1] == r.value;
        r
      else
        assert keys == [keys[0]] + keys[1..];
        r
  }
}
