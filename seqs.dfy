/** Sequence facts shared by the dict-building loops: duplicate-free sequences and first-seen order. */
module Seqs {

  predicate Distinct<T(==)>(xs: seq<T>)
  {
    forall i, j :: 0 <= i < j < |xs| ==> xs[i] != xs[j]
  }

  /** The elements of `xs` in order of first appearance, each once: the key order of a Python dict filled from `xs`. */
  function Dedup<T(==,!new)>(xs: seq<T>): (r: seq<T>)
    ensures Distinct(r)
    ensures forall x :: x in r <==> x in xs
    ensures |r| <= |xs|
  {
    if xs == [] then []
    else
      var p := Dedup(xs[..|xs| - 1]);
      if xs[|xs| - 1] in p then p else p + [xs[|xs| - 1]]
  }

  lemma DedupAppend<T(!new)>(xs: seq<T>, x: T)
    ensures Dedup(xs + [x]) == if x in xs then Dedup(xs) else Dedup(xs) + [x]
  {
    assert (xs + [x])[..|xs|] == xs;
  }

  /** A duplicate-free sequence has as many elements as its set. */
  lemma {:induction false} DistinctCard<T(!new)>(xs: seq<T>)
    requires Distinct(xs)
    ensures |set x | x in xs| == |xs|
  {
    if xs != [] {
      var p := xs[..|xs| - 1];
      assert Distinct(p);
      DistinctCard(p);
      var last := xs[|xs| - 1];
      assert last !in p;
      assert (set x | x in xs) == (set x | x in p) + {last};
    }
  }

  /** Sum of a sequence of reals, in order. */
  function Sum(xs: seq<real>): real
  {
    if xs == [] then 0.0 else Sum(xs[..|xs| - 1]) + xs[|xs| - 1]
  }

  lemma {:induction false} SumConcat(xs: seq<real>, ys: seq<real>)
    ensures Sum(xs + ys) == Sum(xs) + Sum(ys)
    decreases |ys|
  {
    if ys != [] {
      var ys' := ys[..|ys| - 1];
      assert (xs + ys)[..|xs + ys| - 1] == xs + ys';
      SumConcat(xs, ys');
      assert ys == ys' + [ys[|ys| - 1]];
    } else {
      assert xs + ys == xs;
    }
  }

  // ---------------------------------------------------------------------
  // Sums over a dict's values
  // ---------------------------------------------------------------------

  /** The sum of a map's values, independent of any order. */
  ghost function MapSum<K(!new)>(m: map<K, real>): real
    decreases |m|
  {
    if m == map[] then 0.0
    else
      var k :| k in m;
      m[k] + MapSum(m - {k})
  }

  /** Any key can be taken out first. */
  lemma {:induction false} MapSumRemove<K(!new)>(m: map<K, real>, k: K)
    requires k in m
    ensures MapSum(m) == m[k] + MapSum(m - {k})
    decreases |m|
  {
    var j :| j in m && MapSum(m) == m[j] + MapSum(m - {j});
    if j != k {
      MapSumRemove(m - {j}, k);
      MapSumRemove(m - {k}, j);
      assert m - {j} - {k} == m - {k} - {j};
    }
  }

  /** Assigning one key changes the sum by the difference. */
  lemma MapSumUpdate<K(!new)>(m: map<K, real>, k: K, v: real)
    ensures k in m ==> MapSum(m[k := v]) == MapSum(m) - m[k] + v
    ensures k !in m ==> MapSum(m[k := v]) == MapSum(m) + v
  {
    MapSumRemove(m[k := v], k);
    if k in m {
      MapSumRemove(m, k);
      assert m[k := v] - {k} == m - {k};
    } else {
      assert m[k := v] - {k} == m;
    }
  }

  /** The values of `m` under `keys`, added in the order of `keys`. */
  function SumAt<K>(m: map<K, real>, keys: seq<K>): real
    requires forall k :: k in keys ==> k in m
  {
    if keys == [] then 0.0 else SumAt(m, keys[..|keys| - 1]) + m[keys[|keys| - 1]]
  }

  lemma {:induction false} SumAtAgree<K>(m: map<K, real>, m': map<K, real>, keys: seq<K>)
    requires forall k :: k in keys ==> k in m && k in m' && m[k] == m'[k]
    ensures SumAt(m, keys) == SumAt(m', keys)
  {
    if keys != [] {
      SumAtAgree(m, m', keys[..|keys| - 1]);
    }
  }

  /** Adding the values in any duplicate-free listing of the keys gives the order-free sum. */
  lemma {:induction false} SumAtMapSum<K(!new)>(m: map<K, real>, keys: seq<K>)
    requires Distinct(keys)
    requires forall k :: k in keys <==> k in m
    ensures SumAt(m, keys) == MapSum(m)
  {
    if keys == [] {
      assert m == map[];
    } else {
      var last := keys[|keys| - 1];
      var init := keys[..|keys| - 1];
      var rest := m - {last};
      assert last !in init;
      MapSumRemove(m, last);
      SumAtAgree(m, rest, init);
      SumAtMapSum(rest, init);
    }
  }
}
