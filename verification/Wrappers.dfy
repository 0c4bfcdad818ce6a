/** What every other module uses: a value or none, a value or an error, and facts about sets and maps. */
module Wrappers {
  datatype Option<+T> = None | Some(value: T)

  datatype Result<+T, +E> = Ok(value: T) | Err(error: E)

  lemma SmallerSet<T>(a: set<T>, b: set<T>)
    requires a <= b
    ensures |a| <= |b|
  {
    assert b == a + (b - a);
  }

  lemma Elsewhere<K, V>(m: map<K, V>, n: map<K, V>, x: K)
    requires m - {x} == n - {x}
    ensures forall k :: k != x ==> (k in m <==> k in n) && (k in m && k in n ==> m[k] == n[k])
  {
    forall k | k != x ensures (k in m <==> k in n) && (k in m && k in n ==> m[k] == n[k]) {
      assert k in m <==> k in (m - {x});
      assert k in n <==> k in (n - {x});
      if k in m {
        assert (m - {x})[k] == (n - {x})[k];
      }
    }
  }
}
