/** Python's insertion-ordered `dict` as a list of (key, value) entries. */
module OrderedDict {
  import opened Wrappers

  type Dict<K, V> = seq<(K, V)>

  /** No key occurs twice. */
  ghost predicate UniqueKeys<K, V>(d: Dict<K, V>)
  {
    forall i, j :: 0 <= i < j < |d| ==> d[i].0 != d[j].0
  }

  /** `d.get(k)`: the value of the entry for `k`. */
  function Get<K(==), V>(d: Dict<K, V>, k: K): Option<V>
  {
    if d == [] then None
    else if d[0].0 == k then Some(d[0].1)
    else Get(d[1..], k)
  }

  /** `d.get(k, default)`. */
  function GetOr<K(==), V>(d: Dict<K, V>, k: K, default: V): V
  {
    match Get(d, k)
    case Some(v) => v
    case None => default
  }

  /** `d[k] = v`: an existing key keeps its place, a new key goes last. */
  function Put<K(==), V>(d: Dict<K, V>, k: K, v: V): Dict<K, V>
  {
    if d == [] then [(k, v)]
    else if d[0].0 == k then [(k, v)] + d[1..]
    else [d[0]] + Put(d[1..], k, v)
  }

  /** `k in d` exactly when some entry has key `k`. */
  lemma {:induction false} GetFound<K, V>(d: Dict<K, V>, k: K)
    ensures Get(d, k).Some? <==> exists i :: 0 <= i < |d| && d[i].0 == k
  {
    if d != [] && d[0].0 != k {
      GetFound(d[1..], k);
      assert forall i :: 0 < i < |d| ==> d[i] == d[1..][i - 1];
    }
  }

  /** After `d[k] = v`, `k` maps to `v` and every other key to what it mapped to
      before; the keys stay unique; a new key is appended. */
  lemma {:induction false} PutGet<K, V>(d: Dict<K, V>, k: K, v: V, k': K)
    ensures Get(Put(d, k, v), k) == Some(v)
    ensures k' != k ==> Get(Put(d, k, v), k') == Get(d, k')
    ensures Get(d, k).None? ==> Put(d, k, v) == d + [(k, v)]
  {
    if d != [] && d[0].0 != k {
      PutGet(d[1..], k, v, k');
      if Get(d, k).None? {
        assert d == [d[0]] + d[1..];
      }
    }
  }

  lemma {:induction false} PutUnique<K, V>(d: Dict<K, V>, k: K, v: V)
    requires UniqueKeys(d)
    ensures UniqueKeys(Put(d, k, v))
  {
    if d != [] && d[0].0 != k {
      assert UniqueKeys(d[1..]) by {
        forall i, j | 0 <= i < j < |d[1..]| ensures d[1..][i].0 != d[1..][j].0 {
          assert d[1..][i] == d[i + 1] && d[1..][j] == d[j + 1];
        }
      }
      PutUnique(d[1..], k, v);
      var tail := Put(d[1..], k, v);
      var r := [d[0]] + tail;
      assert Get(d[1..], d[0].0).None? by {
        GetFound(d[1..], d[0].0);
        assert forall i :: 0 <= i < |d[1..]| ==> d[1..][i] == d[i + 1];
      }
      forall j | 0 < j < |r| ensures r[0].0 != r[j].0 {
        assert tail[j - 1].0 == r[j].0;
        GetFound(tail, r[j].0);
        PutGet(d[1..], k, v, r[j].0);
        if r[j].0 != k {
          assert Get(tail, r[j].0) == Get(d[1..], r[j].0);
        }
      }
    } else if d != [] {
      var r := Put(d, k, v);
      assert forall i :: 0 < i < |r| ==> r[i] == d[i];
    }
  }
}
