/**
 The total weight of a map's values, used to count over the maps of the engine's state.
 */
module Maps {

  ghost function Weight<V>(m: map<nat, V>, w: V -> nat): (n: nat)
    decreases |m|
  {
    if m == map[] then 0
    else
      var k :| k in m;
      RemoveKey(m, k);
      w(m[k]) + Weight(m - {k}, w)
  }

  lemma RemoveKey<V>(m: map<nat, V>, k: nat)
    requires k in m
    ensures |m - {k}| == |m| - 1
  {
    assert (m - {k}).Keys == m.Keys - {k};
    assert |m - {k}| == |(m - {k}).Keys| && |m| == |m.Keys|;
  }

  lemma AddKey<V>(m: map<nat, V>, k: nat, v: V)
    requires k !in m
    ensures |m[k := v]| == |m| + 1
  {
    assert m[k := v].Keys == m.Keys + {k};
    assert |m[k := v]| == |m[k := v].Keys| && |m| == |m.Keys|;
  }

  /** Any key may be weighed first. */
  lemma {:induction false} WeightSplit<V>(m: map<nat, V>, w: V -> nat, k: nat)
    requires k in m
    ensures Weight(m, w) == w(m[k]) + Weight(m - {k}, w)
    decreases |m|
  {
    var j :| j in m && Weight(m, w) == w(m[j]) + Weight(m - {j}, w);
    if j != k {
      RemoveKey(m, j);
      RemoveKey(m, k);
      WeightSplit(m - {j}, w, k);
      WeightSplit(m - {k}, w, j);
      assert m - {j} - {k} == m - {k} - {j};
    }
  }

  /** What replacing or adding one value does to the weight. */
  lemma WeightUpdate<V>(m: map<nat, V>, w: V -> nat, k: nat, v: V)
    ensures Weight(m[k := v], w) == Weight(m, w) + w(v) - if k in m then w(m[k]) else 0
  {
    WeightSplit(m[k := v], w, k);
    if k in m {
      WeightSplit(m, w, k);
      assert m[k := v] - {k} == m - {k};
    } else {
      assert m[k := v] - {k} == m;
    }
  }

  lemma WeightRemove<V>(m: map<nat, V>, w: V -> nat, k: nat)
    requires k in m
    ensures Weight(m - {k}, w) == Weight(m, w) - w(m[k])
  {
    WeightSplit(m, w, k);
  }

  /** Values that weigh the same key by key weigh the same in all. */
  lemma {:induction false} WeightSame<V>(m: map<nat, V>, m': map<nat, V>, w: V -> nat)
    requires m.Keys == m'.Keys && forall k :: k in m ==> w(m[k]) == w(m'[k])
    ensures Weight(m, w) == Weight(m', w)
    decreases |m|
  {
    if m != map[] {
      var k :| k in m;
      RemoveKey(m, k);
      WeightSplit(m, w, k);
      WeightSplit(m', w, k);
      WeightSame(m - {k}, m' - {k}, w);
    } else {
      assert m' == map[];
    }
  }
}
