/** Ranging over a Go map: every key is visited exactly once, in an order the
    language leaves unspecified. The enumerations here pick keys one at a
    time without saying which, so every conclusion drawn from them holds for
    every visiting order. */
module GoMaps {

  predicate Distinct<K(==)>(ks: seq<K>) {
    forall i, j :: 0 <= i < j < |ks| ==> ks[i] != ks[j]
  }

  /** ks lists every key of m once and nothing else. */
  ghost predicate EnumeratesKeys<K(!new), V>(m: map<K, V>, ks: seq<K>) {
    Distinct(ks) && (forall k :: k in m <==> k in ks)
  }

  /** A repetition-free list is as long as the set of its elements is large. */
  lemma {:induction false} DistinctCardinality<K>(ks: seq<K>)
    requires Distinct(ks)
    ensures |set k | k in ks| == |ks|
    decreases |ks|
  {
    if ks != [] {
      var init := ks[..|ks| - 1];
      var last := ks[|ks| - 1];
      DistinctCardinality(init);
      assert (set k | k in ks) == (set k | k in init) + {last};
      assert last !in (set k | k in init);
    }
  }

  /** An enumeration of a map's keys is as long as the map is large. */
  lemma EnumerationLength<K(!new), V>(m: map<K, V>, ks: seq<K>)
    requires EnumeratesKeys(m, ks)
    ensures |ks| == |m|
  {
    DistinctCardinality(ks);
    assert (set k | k in ks) == m.Keys;
  }

  /** `for k := range m { keys = append(keys, k) }`. */
  method Keys<K(!new), V>(m: map<K, V>) returns (ks: seq<K>)
    ensures EnumeratesKeys(m, ks) && |ks| == |m|
  {
    ks := [];
    var remaining := m.Keys;
    while remaining != {}
      invariant remaining <= m.Keys
      invariant Distinct(ks)
      invariant forall k :: k in ks ==> k in m && k !in remaining
      invariant forall k :: k in m ==> k in ks || k in remaining
      decreases |remaining|
    {
      var k :| k in remaining;
      ks := ks + [k];
      remaining := remaining - {k};
    }
    EnumerationLength(m, ks);
  }

  /** `for _, v := range m { vs = append(vs, v) }`: the values in key order ks
      for some enumeration ks of the keys. */
  method Values<K(!new), V>(m: map<K, V>) returns (vs: seq<V>, ks: seq<K>)
    ensures EnumeratesKeys(m, ks) && |vs| == |ks| == |m|
    ensures forall i :: 0 <= i < |vs| ==> ks[i] in m && vs[i] == m[ks[i]]
  {
    vs, ks := [], [];
    var remaining := m.Keys;
    while remaining != {}
      invariant remaining <= m.Keys
      invariant Distinct(ks) && |vs| == |ks|
      invariant forall k :: k in ks ==> k in m && k !in remaining
      invariant forall k :: k in m ==> k in ks || k in remaining
      invariant forall i :: 0 <= i < |vs| ==> ks[i] in m && vs[i] == m[ks[i]]
      decreases |remaining|
    {
      var k :| k in remaining;
      vs, ks := vs + [m[k]], ks + [k];
      remaining := remaining - {k};
    }
    EnumerationLength(m, ks);
  }
}
