/**
 Group-by aggregates over a table held column-wise: a column of group keys and,
 beside it, a column of values of the same length. These are the exact
 counterparts of the `groupby(...).agg(...)`, `.mean()`, `.sum()` and
 `.unique()` calls both analysis scripts are built from.
 */
module Tally {

  /** The mean of an empty column is not a number. */
  datatype Metric = Value(v: real) | NaN

  predicate NoDup<T(==)>(s: seq<T>)
  {
    forall i, j :: 0 <= i < j < |s| ==> s[i] != s[j]
  }

  predicate IsIndicator(x: int)
  {
    x == 0 || x == 1
  }

  predicate AllIndicators(xs: seq<int>)
  {
    forall i :: 0 <= i < |xs| ==> IsIndicator(xs[i])
  }

  /** Number of rows whose key is `k` (the group size). */
  function Count<K(==)>(keys: seq<K>, k: K): (n: nat)
    ensures n <= |keys|
    ensures n > 0 <==> k in keys
    decreases |keys|
  {
    if keys == [] then 0
    else
      var m := |keys| - 1;
      assert keys == keys[..m] + [keys[m]];
      Count(keys[..m], k) + (if keys[m] == k then 1 else 0)
  }

  /** Sum of the integer values of the rows whose key is `k`. */
  function SumInt<K(==)>(keys: seq<K>, vals: seq<int>, k: K): (r: int)
    requires |keys| == |vals|
    ensures k !in keys ==> r == 0
    ensures (forall i :: 0 <= i < |vals| ==> 0 <= vals[i]) ==> 0 <= r
    decreases |keys|
  {
    if keys == [] then 0
    else
      var m := |keys| - 1;
      SumInt(keys[..m], vals[..m], k) + (if keys[m] == k then vals[m] else 0)
  }

  /** Sum of the real values of the rows whose key is `k`. */
  function SumReal<K(==)>(keys: seq<K>, vals: seq<real>, k: K): (r: real)
    requires |keys| == |vals|
    ensures k !in keys ==> r == 0.0
    ensures (forall i :: 0 <= i < |vals| ==> 0.0 <= vals[i]) ==> 0.0 <= r
    decreases |keys|
  {
    if keys == [] then 0.0
    else
      var m := |keys| - 1;
      SumReal(keys[..m], vals[..m], k) + (if keys[m] == k then vals[m] else 0.0)
  }

  /** Largest value among the rows whose key is `k`; the group must be non-empty. */
  function MaxReal<K(==)>(keys: seq<K>, vals: seq<real>, k: K): (mx: real)
    requires |keys| == |vals| && k in keys
    ensures forall i :: 0 <= i < |keys| && keys[i] == k ==> vals[i] <= mx
    ensures exists i :: 0 <= i < |keys| && keys[i] == k && vals[i] == mx
    decreases |keys|
  {
    var m := |keys| - 1;
    assert keys == keys[..m] + [keys[m]];
    if keys[m] != k then MaxReal(keys[..m], vals[..m], k)
    else if k !in keys[..m] then vals[m]
    else
      var rest := MaxReal(keys[..m], vals[..m], k);
      if vals[m] > rest then vals[m] else rest
  }

  /** Mean of a group's integer values: the sum over the group size. */
  function GroupMean<K(==)>(keys: seq<K>, vals: seq<int>, k: K): (r: real)
    requires |keys| == |vals| && k in keys
    ensures ScalesBackTo(r, Count(keys, k), SumInt(keys, vals, k))
    ensures AllIndicators(vals) ==> 0.0 <= r <= 1.0
  {
    SumIntOfIndicators(keys, vals, k);
    Quotient(SumInt(keys, vals, k), Count(keys, k))
  }

  /** The keys of a column, each once, in order of first occurrence. */
  function Distinct<K(==)>(keys: seq<K>): (d: seq<K>)
    ensures NoDup(d)
    ensures forall i :: 0 <= i < |d| ==> d[i] in keys
    ensures forall i :: 0 <= i < |keys| ==> keys[i] in d
    ensures |d| <= |keys|
    decreases |keys|
  {
    if keys == [] then []
    else
      var m := |keys| - 1;
      var d := Distinct(keys[..m]);
      assert keys == keys[..m] + [keys[m]];
      if keys[m] in d then d else d + [keys[m]]
  }

  /** Sum of a whole integer column. */
  function Total(xs: seq<int>): (r: int)
    ensures (forall i :: 0 <= i < |xs| ==> 0 <= xs[i]) ==> 0 <= r
    decreases |xs|
  {
    if xs == [] then 0 else Total(xs[..|xs| - 1]) + xs[|xs| - 1]
  }

  /** Mean of a whole integer column; an empty column has no mean. */
  function Mean(xs: seq<int>): (r: Metric)
    ensures |xs| == 0 <==> r.NaN?
  {
    if |xs| == 0 then NaN else Value(Total(xs) as real / |xs| as real)
  }

  /** Sum of the group sizes of the keys in `ks`. */
  function SumCounts<K(==)>(keys: seq<K>, ks: seq<K>): nat
    decreases |ks|
  {
    if ks == [] then 0
    else SumCounts(keys, ks[..|ks| - 1]) + Count(keys, ks[|ks| - 1])
  }

  // ---------------------------------------------------------------------
  // Lemmas
  // ---------------------------------------------------------------------

  /** A group sum of 0/1 values counts the group's rows whose value is 1, so it lies between 0 and the group size. */
  lemma {:induction false} SumIntOfIndicators<K>(keys: seq<K>, vals: seq<int>, k: K)
    requires |keys| == |vals|
    ensures AllIndicators(vals) ==> 0 <= SumInt(keys, vals, k) <= Count(keys, k)
    decreases |keys|
  {
    if keys != [] {
      var m := |keys| - 1;
      assert AllIndicators(vals) ==> AllIndicators(vals[..m]);
      SumIntOfIndicators(keys[..m], vals[..m], k);
    }
  }

  /** A part of a positive whole, as a real ratio, is a proportion. */
  lemma ProportionBounds(part: int, whole: int)
    requires 0 <= part <= whole && whole > 0
    ensures 0.0 <= part as real / whole as real <= 1.0
  {
  }

  /** `q` times `n` is `total`: `q` is the mean of `n` values adding up to `total`. */
  predicate ScalesBackTo(q: real, n: int, total: int)
  {
    q * n as real == total as real
  }

  /** Exact real division by a positive integer: scaling the quotient back gives the dividend. */
  function Quotient(dividend: int, divisor: int): (q: real)
    requires divisor > 0
    ensures ScalesBackTo(q, divisor, dividend)
    ensures 0 <= dividend <= divisor ==> 0.0 <= q <= 1.0
  {
    dividend as real / divisor as real
  }

  /** The total of a 0/1 column lies between 0 and its length. */
  lemma {:induction false} TotalOfIndicators(xs: seq<int>)
    requires AllIndicators(xs)
    ensures 0 <= Total(xs) <= |xs|
    decreases |xs|
  {
    if xs != [] {
      assert AllIndicators(xs[..|xs| - 1]);
      TotalOfIndicators(xs[..|xs| - 1]);
    }
  }

  /** A one-row table contributes its value to its own key's sum and nothing to any other. */
  lemma SumIntOfRow<K>(x: K, v: int, k: K)
    ensures SumInt([x], [v], k) == if x == k then v else 0
  {
    assert [x][..0] == [] && [v][..0] == [];
  }

  /** A group sum over two stacked tables is the sum of the two group sums. */
  lemma {:induction false} SumIntAppend<K>(keys1: seq<K>, vals1: seq<int>, keys2: seq<K>, vals2: seq<int>, k: K)
    requires |keys1| == |vals1| && |keys2| == |vals2|
    ensures SumInt(keys1 + keys2, vals1 + vals2, k) == SumInt(keys1, vals1, k) + SumInt(keys2, vals2, k)
    decreases |keys2|
  {
    if keys2 == [] {
      assert keys1 + keys2 == keys1 && vals1 + vals2 == vals1;
    } else {
      var m := |keys2| - 1;
      assert (keys1 + keys2)[..|keys1| + m] == keys1 + keys2[..m];
      assert (vals1 + vals2)[..|vals1| + m] == vals1 + vals2[..m];
      SumIntAppend(keys1, vals1, keys2[..m], vals2[..m], k);
    }
  }

  /** A one-row table contributes its value to its own key's sum and nothing to any other. */
  lemma SumRealOfRow<K>(x: K, v: real, k: K)
    ensures SumReal([x], [v], k) == if x == k then v else 0.0
  {
    assert [x][..0] == [] && [v][..0] == [];
  }

  /** A group sum over two stacked tables is the sum of the two group sums. */
  lemma {:induction false} SumRealAppend<K>(keys1: seq<K>, vals1: seq<real>, keys2: seq<K>, vals2: seq<real>, k: K)
    requires |keys1| == |vals1| && |keys2| == |vals2|
    ensures SumReal(keys1 + keys2, vals1 + vals2, k) == SumReal(keys1, vals1, k) + SumReal(keys2, vals2, k)
    decreases |keys2|
  {
    if keys2 == [] {
      assert keys1 + keys2 == keys1 && vals1 + vals2 == vals1;
    } else {
      var m := |keys2| - 1;
      assert (keys1 + keys2)[..|keys1| + m] == keys1 + keys2[..m];
      assert (vals1 + vals2)[..|vals1| + m] == vals1 + vals2[..m];
      SumRealAppend(keys1, vals1, keys2[..m], vals2[..m], k);
    }
  }

  /** The key/value pairs of two columns, row by row. */
  function Pairs<K>(keys: seq<K>, vals: seq<int>): (p: seq<(K, int)>)
    requires |keys| == |vals|
    ensures |p| == |keys| && forall i :: 0 <= i < |keys| ==> p[i] == (keys[i], vals[i])
  {
    seq(|keys|, i requires 0 <= i < |keys| => (keys[i], vals[i]))
  }

  /** A group sum of 0/1 values is the number of the group's rows whose value is 1. */
  lemma {:induction false} SumIntOfIndicatorsCountsOnes<K>(keys: seq<K>, vals: seq<int>, k: K)
    requires |keys| == |vals| && AllIndicators(vals)
    ensures SumInt(keys, vals, k) == Count(Pairs(keys, vals), (k, 1))
    decreases |keys|
  {
    if keys != [] {
      var m := |keys| - 1;
      assert AllIndicators(vals[..m]);
      assert Pairs(keys, vals)[..m] == Pairs(keys[..m], vals[..m]);
      SumIntOfIndicatorsCountsOnes(keys[..m], vals[..m], k);
    }
  }

  /** The total of a 0/1 column is the number of its entries equal to 1. */
  lemma {:induction false} TotalOfIndicatorsCountsOnes(xs: seq<int>)
    requires AllIndicators(xs)
    ensures Total(xs) == Count(xs, 1)
    decreases |xs|
  {
    if xs != [] {
      assert AllIndicators(xs[..|xs| - 1]);
      TotalOfIndicatorsCountsOnes(xs[..|xs| - 1]);
    }
  }

  /** Three non-negative columns with at most 1 per row add up to at most the row count. */
  lemma {:induction false} TotalsOfExclusiveColumns(a: seq<int>, b: seq<int>, c: seq<int>)
    requires |a| == |b| == |c|
    requires forall i :: 0 <= i < |a| ==> 0 <= a[i] && 0 <= b[i] && 0 <= c[i] && a[i] + b[i] + c[i] <= 1
    ensures Total(a) + Total(b) + Total(c) <= |a|
    decreases |a|
  {
    if a != [] {
      var m := |a| - 1;
      TotalsOfExclusiveColumns(a[..m], b[..m], c[..m]);
    }
  }

  /** A column that is row by row the sum of three others totals to the sum of their totals. */
  lemma {:induction false} TotalOfRowwiseSum(e: seq<int>, a: seq<int>, b: seq<int>, c: seq<int>)
    requires |e| == |a| == |b| == |c|
    requires forall i :: 0 <= i < |e| ==> e[i] == a[i] + b[i] + c[i]
    ensures Total(e) == Total(a) + Total(b) + Total(c)
    decreases |e|
  {
    if e != [] {
      var m := |e| - 1;
      TotalOfRowwiseSum(e[..m], a[..m], b[..m], c[..m]);
    }
  }

  /** Appending a row with key `x` adds one to the group sizes of exactly the entries of `ks` equal to `x`. */
  lemma {:induction false} SumCountsAppend<K>(keys: seq<K>, x: K, ks: seq<K>)
    ensures SumCounts(keys + [x], ks) == SumCounts(keys, ks) + Count(ks, x)
    decreases |ks|
  {
    if ks != [] {
      var m := |ks| - 1;
      SumCountsAppend(keys, x, ks[..m]);
      assert (keys + [x])[..|keys|] == keys;
    }
  }

  /** A group size is the key's multiplicity in the key column, so it does not depend on row order. */
  lemma {:induction false} CountIsMultiplicity<K>(keys: seq<K>, k: K)
    ensures Count(keys, k) == multiset(keys)[k]
    decreases |keys|
  {
    if keys != [] {
      var m := |keys| - 1;
      assert keys == keys[..m] + [keys[m]];
      CountIsMultiplicity(keys[..m], k);
    }
  }

  /** A key has group size 1 exactly when no other row carries it. */
  lemma CountOneIffUnique<K>(keys: seq<K>, i: nat)
    requires i < |keys|
    ensures Count(keys, keys[i]) == 1 <==> forall j :: 0 <= j < |keys| && j != i ==> keys[j] != keys[i]
  {
    var k := keys[i];
    var front, back := keys[..i], keys[i + 1..];
    CountAt(keys, i);
    assert (k in front || k in back) <==> exists j :: 0 <= j < |keys| && j != i && keys[j] == k by {
      if k in front {
        var j :| 0 <= j < |front| && front[j] == k;
        assert keys[j] == k;
      }
      if k in back {
        var j :| 0 <= j < |back| && back[j] == k;
        assert keys[i + 1 + j] == k;
      }
      if exists j :: 0 <= j < |keys| && j != i && keys[j] == k {
        var j :| 0 <= j < |keys| && j != i && keys[j] == k;
        if j < i {
          assert front[j] == k;
        } else {
          assert back[j - i - 1] == k;
        }
      }
    }
  }

  /** A row with key `k` between two tables adds one to the sizes of their `k` groups. */
  lemma CountAround<K>(front: seq<K>, k: K, back: seq<K>)
    ensures Count(front + [k] + back, k) == Count(front, k) + 1 + Count(back, k)
  {
    assert [k][..0] == [];
    CountAppend(front, [k], k);
    CountAppend(front + [k], back, k);
  }

  /** The group of the key at position `i` is that row plus the rows of its key before and after it. */
  lemma CountAt<K>(keys: seq<K>, i: nat)
    requires i < |keys|
    ensures Count(keys, keys[i]) == Count(keys[..i], keys[i]) + 1 + Count(keys[i + 1..], keys[i])
  {
    SplitAt(keys, i);
    CountAround(keys[..i], keys[i], keys[i + 1..]);
  }

  lemma SplitAt<T>(s: seq<T>, i: nat)
    requires i < |s|
    ensures s == s[..i] + [s[i]] + s[i + 1..]
  {
  }

  /** One more row adds one to its own key's group size and nothing to any other. */
  lemma CountAppendRow<K>(keys: seq<K>, x: K, k: K)
    ensures Count(keys + [x], k) == Count(keys, k) + (if x == k then 1 else 0)
  {
    assert (keys + [x])[..|keys|] == keys;
  }

  /** Group sizes add up over a concatenation of tables. */
  lemma {:induction false} CountAppend<K>(keys1: seq<K>, keys2: seq<K>, k: K)
    ensures Count(keys1 + keys2, k) == Count(keys1, k) + Count(keys2, k)
    decreases |keys2|
  {
    if keys2 == [] {
      assert keys1 + keys2 == keys1;
    } else {
      var m := |keys2| - 1;
      assert (keys1 + keys2)[..|keys1| + m] == keys1 + keys2[..m];
      CountAppend(keys1, keys2[..m], k);
    }
  }

  /** In a list without duplicates a key occurs at most once. */
  lemma {:induction false} CountInNoDup<K>(ks: seq<K>, x: K)
    requires NoDup(ks)
    ensures Count(ks, x) == if x in ks then 1 else 0
    decreases |ks|
  {
    if ks != [] {
      var m := |ks| - 1;
      assert ks == ks[..m] + [ks[m]];
      CountInNoDup(ks[..m], x);
    }
  }

  /** Group sizes over a duplicate-free list of keys that covers every row add up to the row count. */
  lemma {:induction false} SumCountsOfCover<K>(keys: seq<K>, ks: seq<K>)
    requires NoDup(ks)
    requires forall k :: k in keys ==> k in ks
    ensures SumCounts(keys, ks) == |keys|
    decreases |keys|
  {
    if keys == [] {
      SumCountsOfEmpty(ks);
    } else {
      var m := |keys| - 1;
      assert keys == keys[..m] + [keys[m]];
      SumCountsOfCover(keys[..m], ks);
      SumCountsAppend(keys[..m], keys[m], ks);
      CountInNoDup(ks, keys[m]);
    }
  }

  lemma {:induction false} SumCountsOfEmpty<K>(ks: seq<K>)
    ensures SumCounts([], ks) == 0
    decreases |ks|
  {
    if ks != [] {
      SumCountsOfEmpty(ks[..|ks| - 1]);
    }
  }
}
