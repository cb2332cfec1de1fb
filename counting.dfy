/**
 * Frequency tables: the `counts[key] = counts.get(key, 0) + 1` dictionaries of the
 * Python code and the `dist[key] = (dist[key] || 0) + 1` records of the front end.
 */
module Counting {
  /** The table built by counting `keys` one after another. */
  function CountMap<K(!new)>(keys: seq<K>): (m: map<K, nat>)
  {
    if keys == [] then map[]
    else
      var prev := CountMap(keys[..|keys| - 1]);
      var k := keys[|keys| - 1];
      prev[k := (if k in prev then prev[k] else 0) + 1]
  }

  /** The table has exactly the keys that occur, each with its number of occurrences. */
  lemma {:induction false} CountMapCounts<K(!new)>(keys: seq<K>)
    ensures forall k :: k in CountMap(keys) <==> k in keys
    ensures forall k :: k in CountMap(keys) ==> CountMap(keys)[k] == multiset(keys)[k]
  {
    if keys != [] {
      var init, k := keys[..|keys| - 1], keys[|keys| - 1];
      CountMapCounts(init);
      assert keys == init + [k];
    }
  }

  /** The sum of a table's values. */
  ghost function Total<K>(m: map<K, nat>): nat
    decreases |m.Keys|
  {
    if m.Keys == {} then 0
    else
      var k :| k in m.Keys;
      m[k] + Total(m - {k})
  }

  /** The sum does not depend on which key is taken out first. */
  lemma {:induction false} TotalRemove<K>(m: map<K, nat>, k: K)
    requires k in m
    ensures Total(m) == m[k] + Total(m - {k})
    decreases |m.Keys|
  {
    var j :| j in m.Keys && Total(m) == m[j] + Total(m - {j});
    if j != k {
      assert (m - {j}) - {k} == (m - {k}) - {j};
      TotalRemove(m - {j}, k);
      TotalRemove(m - {k}, j);
    }
  }

  /** Counting every key once more adds exactly one to the sum. */
  lemma {:induction false} TotalCountMap<K(!new)>(keys: seq<K>)
    ensures Total(CountMap(keys)) == |keys|
  {
    if keys != [] {
      var prev := CountMap(keys[..|keys| - 1]);
      var k := keys[|keys| - 1];
      TotalCountMap(keys[..|keys| - 1]);
      var m := CountMap(keys);
      assert m == prev[k := (if k in prev then prev[k] else 0) + 1];
      TotalRemove(m, k);
      assert m - {k} == prev - {k};
      if k in prev {
        TotalRemove(prev, k);
      } else {
        assert prev - {k} == prev;
      }
    }
  }

  /** `counts.get(key, 0)`. */
  function Get<K>(m: map<K, nat>, k: K): (v: nat)
    ensures k in m ==> v == m[k]
    ensures k !in m ==> v == 0
  {
    if k in m then m[k] else 0
  }

  /** Counting one more key adds one to its entry. */
  lemma CountMapSnoc<K(!new)>(keys: seq<K>, k: K)
    ensures var m := CountMap(keys); CountMap(keys + [k]) == m[k := Get(m, k) + 1]
  {
    assert (keys + [k])[..|keys|] == keys;
  }
}
