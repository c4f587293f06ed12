/**
  Order-independent sums over the values of a map, as Java computes them with
  `values().stream().mapToInt(...).sum()` or by walking `entrySet()` of a `HashMap`
  whose iteration order is unspecified.
*/
module MapSums {

  /** `m.getOrDefault(k, 0)`. */
  function Get<K>(m: map<K, int>, k: K): int {
    if k in m then m[k] else 0
  }

  /** Some key of a non-empty map: the one a sum visits first. */
  ghost function AnyKey<K, V>(m: map<K, V>): (k: K)
    requires |m| > 0
    ensures k in m
  {
    var k :| k in m; k
  }

  /** The sum of all values of `m`, whatever order the keys are visited in. */
  ghost function SumValues<K>(m: map<K, int>): int
    decreases |m|
  {
    if |m| == 0 then 0
    else
      var k := AnyKey(m);
      assert |m - {k}| < |m| by { CardRemove(m, k); }
      m[k] + SumValues(m - {k})
  }

  lemma CardRemove<K, V>(m: map<K, V>, k: K)
    requires k in m
    ensures |m - {k}| == |m| - 1
  {
    assert (m - {k}).Keys == m.Keys - {k};
    assert |m.Keys - {k}| == |m.Keys| - 1;
  }

  /** Any key may be taken out first: the sum does not depend on the visiting order. */
  lemma {:induction false} SumValuesRemove<K>(m: map<K, int>, k: K)
    requires k in m
    ensures SumValues(m) == m[k] + SumValues(m - {k})
    decreases |m|
  {
    CardRemove(m, k);
    var j := AnyKey(m);
    if j != k {
      CardRemove(m, j);
      CardRemove(m, k);
      SumValuesRemove(m - {j}, k);
      SumValuesRemove(m - {k}, j);
      assert m - {j} - {k} == m - {k} - {j};
    }
  }

  /** One `put(k, getOrDefault(k, 0) + c)` / `merge(k, c, Integer::sum)` step. */
  function Bump<K>(m: map<K, int>, k: K, c: int): map<K, int> {
    m[k := Get(m, k) + c]
  }

  /** Every entry of `b` merged into `a` with `Integer::sum`, in whatever order. */
  function MergeCounts<K>(a: map<K, int>, b: map<K, int>): map<K, int> {
    map k | k in a.Keys + b.Keys :: Get(a, k) + Get(b, k)
  }

  /** Merging one entry first and the rest afterwards is the same as merging all of `b`. */
  lemma MergeBump<K>(acc: map<K, int>, b: map<K, int>, x: K)
    requires x in b
    ensures MergeCounts(acc, b) == MergeCounts(Bump(acc, x, b[x]), b - {x})
  {
  }

  lemma MergeNothing<K>(acc: map<K, int>)
    ensures MergeCounts(acc, map[]) == acc
  {
  }

  lemma {:induction false} SumValuesBump<K>(m: map<K, int>, k: K, c: int)
    ensures SumValues(Bump(m, k, c)) == SumValues(m) + c
  {
    var m' := Bump(m, k, c);
    SumValuesRemove(m', k);
    if k in m {
      SumValuesRemove(m, k);
      assert m' - {k} == m - {k};
    } else {
      assert m' - {k} == m;
    }
  }

  /** The grand total of a merge is the sum of the two grand totals. */
  lemma {:induction false} SumValuesMerge<K>(a: map<K, int>, b: map<K, int>)
    ensures SumValues(MergeCounts(a, b)) == SumValues(a) + SumValues(b)
    decreases |b|
  {
    if |b| == 0 {
      assert b == map[];
      MergeNothing(a);
    } else {
      var x :| x in b;
      MergeBump(a, b, x);
      CardRemove(b, x);
      SumValuesMerge(Bump(a, x, b[x]), b - {x});
      SumValuesBump(a, x, b[x]);
      SumValuesRemove(b, x);
    }
  }

  /** `values().stream().mapToInt(Integer::intValue).sum()`. */
  method SumOf<K>(m: map<K, int>) returns (s: int)
    ensures s == SumValues(m)
  {
    s := 0;
    var rest := m;
    while |rest| > 0
      invariant s + SumValues(rest) == SumValues(m)
      decreases |rest|
    {
      var k :| k in rest;
      SumValuesRemove(rest, k);
      CardRemove(rest, k);
      s := s + rest[k];
      rest := rest - {k};
    }
  }

  /** The same order-independent sum for `double` values, modelled as reals. */
  ghost function SumReals<K>(m: map<K, real>): real
    decreases |m|
  {
    if |m| == 0 then 0.0
    else
      var k := AnyKey(m);
      assert |m - {k}| < |m| by { CardRemove(m, k); }
      m[k] + SumReals(m - {k})
  }

  lemma {:induction false} SumRealsRemove<K>(m: map<K, real>, k: K)
    requires k in m
    ensures SumReals(m) == m[k] + SumReals(m - {k})
    decreases |m|
  {
    CardRemove(m, k);
    var j := AnyKey(m);
    if j != k {
      CardRemove(m, j);
      CardRemove(m, k);
      SumRealsRemove(m - {j}, k);
      SumRealsRemove(m - {k}, j);
      assert m - {j} - {k} == m - {k} - {j};
    }
  }

  /** The sum of a list of doubles, modelled as reals. */
  function SeqSum(s: seq<real>): real {
    if |s| == 0 then 0.0 else SeqSum(s[..|s| - 1]) + s[|s| - 1]
  }

  /** `DoubleStream.average()` of a non-empty list, as an exact real mean. */
  function Mean(s: seq<real>): real
    requires |s| > 0
  {
    SeqSum(s) / (|s| as real)
  }

  /** The mean lies between the smallest and the largest element. */
  lemma {:induction false} MeanBounds(s: seq<real>, lo: real, hi: real)
    requires |s| > 0
    requires forall i :: 0 <= i < |s| ==> lo <= s[i] <= hi
    ensures lo <= Mean(s) <= hi
  {
    SeqSumBounds(s, lo, hi);
  }

  lemma {:induction false} SeqSumBounds(s: seq<real>, lo: real, hi: real)
    requires forall i :: 0 <= i < |s| ==> lo <= s[i] <= hi
    ensures (|s| as real) * lo <= SeqSum(s) <= (|s| as real) * hi
  {
    if |s| > 0 {
      SeqSumBounds(s[..|s| - 1], lo, hi);
    }
  }
}
