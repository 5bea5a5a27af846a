/**
 * Generic operations on sequences of records, the vectorised pandas
 * operations the dashboard is built from: boolean-mask selection, column
 * sums, column means, and "first index of the maximum".
 */
module Seqs {
  import opened Wrappers

  /** The elements of `s` that satisfy `p`, in their original order
      (a boolean-mask selection `df[mask]`). */
  function Filter<T(!new)>(s: seq<T>, p: T -> bool): (r: seq<T>)
    ensures |r| <= |s|
    ensures forall i :: 0 <= i < |r| ==> p(r[i])
    ensures forall x :: x in r <==> x in s && p(x)
  {
    if |s| == 0 then [] else if p(s[0]) then [s[0]] + Filter(s[1..], p) else Filter(s[1..], p)
  }

  /** The selection holds every passing element as often as `s` does, and
      no other element. */
  lemma {:induction false} FilterCounts<T(!new)>(s: seq<T>, p: T -> bool)
    ensures forall x :: multiset(Filter(s, p))[x] == if p(x) then multiset(s)[x] else 0
  {
    if |s| > 0 {
      FilterCounts(s[1..], p);
      assert s == [s[0]] + s[1..];
    }
  }

  /** `a` is obtained from `b` by deleting elements, keeping the order. */
  ghost predicate IsSubsequence<T>(a: seq<T>, b: seq<T>)
    decreases |b|
  {
    if |b| == 0 then |a| == 0
    else (|a| > 0 && a[0] == b[0] && IsSubsequence(a[1..], b[1..])) || IsSubsequence(a, b[1..])
  }

  lemma {:induction false} FilterIsSubsequence<T(!new)>(s: seq<T>, p: T -> bool)
    ensures IsSubsequence(Filter(s, p), s)
  {
    if |s| > 0 {
      FilterIsSubsequence(s[1..], p);
      if p(s[0]) {
        var r := Filter(s, p);
        assert r[1..] == Filter(s[1..], p);
      }
    }
  }

  /** A mask that every element passes selects the whole sequence. */
  lemma {:induction false} FilterKeepsAll<T(!new)>(s: seq<T>, p: T -> bool)
    requires forall i :: 0 <= i < |s| ==> p(s[i])
    ensures Filter(s, p) == s
  {
    if |s| > 0 {
      FilterKeepsAll(s[1..], p);
      assert s == [s[0]] + s[1..];
    }
  }

  /** Two masks that agree everywhere select the same rows. */
  lemma {:induction false} FilterExtensional<T(!new)>(s: seq<T>, p: T -> bool, q: T -> bool)
    requires forall x :: p(x) == q(x)
    ensures Filter(s, p) == Filter(s, q)
  {
    if |s| > 0 {
      FilterExtensional(s[1..], p, q);
    }
  }

  /** Selecting by `p` and then by `q` is selecting by their conjunction `pq`. */
  lemma {:induction false} FilterOfFilter<T(!new)>(s: seq<T>, p: T -> bool, q: T -> bool, pq: T -> bool)
    requires forall x :: pq(x) == (p(x) && q(x))
    ensures Filter(Filter(s, p), q) == Filter(s, pq)
  {
    if |s| > 0 {
      FilterOfFilter(s[1..], p, q, pq);
      if p(s[0]) {
        assert Filter(s, p) == [s[0]] + Filter(s[1..], p);
        assert ([s[0]] + Filter(s[1..], p))[1..] == Filter(s[1..], p);
      }
    }
  }

  /** The column sum `df[col].sum()` of an integer column; 0 on no rows. */
  function Sum<T>(s: seq<T>, f: T -> int): (r: int)
    ensures |s| == 0 ==> r == 0
  {
    if |s| == 0 then 0 else f(s[0]) + Sum(s[1..], f)
  }

  /** The sum of a real-valued column. */
  function RealSum<T>(s: seq<T>, f: T -> real): real
  {
    if |s| == 0 then 0.0 else f(s[0]) + RealSum(s[1..], f)
  }

  /** With a non-negative column, no single row exceeds the column sum. */
  lemma {:induction false} SumBoundsEachTerm<T>(s: seq<T>, f: T -> int, i: int)
    requires forall j :: 0 <= j < |s| ==> f(s[j]) >= 0
    requires 0 <= i < |s|
    ensures f(s[i]) <= Sum(s, f)
  {
    if i > 0 {
      SumBoundsEachTerm(s[1..], f, i - 1);
      assert s[1..][i - 1] == s[i];
      assert f(s[0]) >= 0;
    } else {
      NonNegativeSum(s[1..], f);
    }
  }

  /** A non-negative column has a non-negative sum, row by row. */
  lemma {:induction false} NonNegativeSum<T>(s: seq<T>, f: T -> int)
    requires forall j :: 0 <= j < |s| ==> f(s[j]) >= 0
    ensures Sum(s, f) >= 0
  {
    if |s| > 0 {
      assert forall j :: 0 <= j < |s[1..]| ==> f(s[1..][j]) == f(s[j + 1]);
      NonNegativeSum(s[1..], f);
    }
  }

  /** A column sum over two tables stacked one above the other. */
  lemma {:induction false} SumAppend<T>(a: seq<T>, b: seq<T>, f: T -> int)
    ensures Sum(a + b, f) == Sum(a, f) + Sum(b, f)
  {
    if |a| > 0 {
      SumAppend(a[1..], b, f);
      assert (a + b)[1..] == a[1..] + b;
    } else {
      assert a + b == b;
    }
  }

  /** Summing a column that is the sum of two columns. */
  lemma {:induction false} SumSplit<T>(s: seq<T>, f: T -> int, g: T -> int, h: T -> int)
    requires forall i :: 0 <= i < |s| ==> h(s[i]) == f(s[i]) + g(s[i])
    ensures Sum(s, h) == Sum(s, f) + Sum(s, g)
  {
    if |s| > 0 {
      SumSplit(s[1..], f, g, h);
    }
  }

  /** With a non-negative column, a wider mask never selects a smaller sum. */
  lemma {:induction false} SumFilterMonotone<T(!new)>(s: seq<T>, p: T -> bool, q: T -> bool, f: T -> int)
    requires forall x :: p(x) ==> q(x)
    requires forall x :: f(x) >= 0
    ensures Sum(Filter(s, p), f) <= Sum(Filter(s, q), f)
  {
    if |s| > 0 {
      SumFilterMonotone(s[1..], p, q, f);
      var rest := Filter(s[1..], q);
      if q(s[0]) && !p(s[0]) {
        assert Sum(Filter(s, q), f) == f(s[0]) + Sum(rest, f);
      }
    }
  }

  /** Summing an integer column as reals gives the integer sum. */
  lemma {:induction false} RealSumOfInts<T>(s: seq<T>, f: T -> int, g: T -> real)
    requires forall x :: g(x) == f(x) as real
    ensures RealSum(s, g) == Sum(s, f) as real
  {
    if |s| > 0 {
      RealSumOfInts(s[1..], f, g);
    }
  }

  /** The column mean `df[col].mean()`: the sum over the row count, and
      `None` (NaN) when there are no rows. */
  function Mean<T>(s: seq<T>, f: T -> real): (r: Option<real>)
    ensures r.None? <==> |s| == 0
    ensures r.Some? ==> r.value * |s| as real == RealSum(s, f)
  {
    if |s| == 0 then None else Some(RealSum(s, f) / |s| as real)
  }

  lemma {:induction false} RealSumBounds<T>(s: seq<T>, f: T -> real, lo: real, hi: real)
    requires forall i :: 0 <= i < |s| ==> lo <= f(s[i]) <= hi
    ensures |s| as real * lo <= RealSum(s, f) <= |s| as real * hi
  {
    if |s| > 0 {
      RealSumBounds(s[1..], f, lo, hi);
    }
  }

  /** A mean lies between the smallest and the largest value averaged. */
  lemma MeanBetween<T>(s: seq<T>, f: T -> real, lo: real, hi: real)
    requires |s| > 0
    requires forall i :: 0 <= i < |s| ==> lo <= f(s[i]) <= hi
    ensures lo <= Mean(s, f).value <= hi
  {
    RealSumBounds(s, f, lo, hi);
    var n := |s| as real;
    var m := Mean(s, f).value;
    assert m * n == RealSum(s, f);
    assert n * lo <= m * n <= n * hi;
  }

  /**
   * The first position from `lo` on where the partial column `col` is
   * largest, skipping its `None` (NaN) entries: pandas `idxmax` over a
   * sorted index, which breaks ties by the first occurrence.
   */
  function FirstArgMax(col: seq<Option<real>>, lo: nat): (r: Option<nat>)
    decreases |col| - lo
    ensures r.None? <==> forall i :: lo <= i < |col| ==> col[i].None?
    ensures r.Some? ==> lo <= r.value < |col| && col[r.value].Some?
    ensures r.Some? ==> forall i :: lo <= i < |col| && col[i].Some? ==> col[i].value <= col[r.value].value
    ensures r.Some? ==> forall i :: lo <= i < r.value && col[i].Some? ==> col[i].value < col[r.value].value
  {
    if lo >= |col| then None
    else
      var rest := FirstArgMax(col, lo + 1);
      if col[lo].None? then rest
      else if rest.None? || col[rest.value].value <= col[lo].value then Some(lo)
      else rest
  }
}
