/** The numpy reductions the core relies on (prod, sum, clip), over exact
    integers and reals, with the arithmetic facts the index proofs need. */
module Numeric {

  /** numpy.prod over integers: the empty product is 1. */
  function Prod(s: seq<int>): int
  {
    if |s| == 0 then 1 else Prod(s[..|s| - 1]) * s[|s| - 1]
  }

  /** numpy.sum over integers. */
  function Sum(s: seq<int>): int
  {
    if |s| == 0 then 0 else Sum(s[..|s| - 1]) + s[|s| - 1]
  }

  /** numpy.prod over reals: the empty product is 1. */
  function RealProd(s: seq<real>): real
  {
    if |s| == 0 then 1.0 else RealProd(s[..|s| - 1]) * s[|s| - 1]
  }

  lemma ProdSnoc(s: seq<int>, x: int)
    ensures Prod(s + [x]) == Prod(s) * x
  {
    assert (s + [x])[..|s|] == s;
  }

  lemma SumSnoc(s: seq<int>, x: int)
    ensures Sum(s + [x]) == Sum(s) + x
  {
    assert (s + [x])[..|s|] == s;
  }

  /** The product peeled from the front, as numpy reduces axis 0. */
  lemma {:induction false} ProdCons(s: seq<int>)
    requires |s| > 0
    ensures Prod(s) == s[0] * Prod(s[1..])
  {
    if |s| > 1 {
      ProdCons(s[..|s| - 1]);
      assert s[..|s| - 1][1..] == s[1..][..|s[1..]| - 1];
    } else {
      assert s[1..] == [];
      assert s[..0] == [];
    }
  }

  lemma {:induction false} ProdNonNeg(s: seq<int>)
    requires forall i :: 0 <= i < |s| ==> s[i] >= 0
    ensures Prod(s) >= 0
  {
    if |s| > 0 {
      ProdNonNeg(s[..|s| - 1]);
      MulNonNeg(Prod(s[..|s| - 1]), s[|s| - 1]);
    }
  }

  /** A zero factor makes the whole product zero. */
  lemma {:induction false} RealProdZero(s: seq<real>, k: int)
    requires 0 <= k < |s| && s[k] == 0.0
    ensures RealProd(s) == 0.0
  {
    if k < |s| - 1 {
      RealProdZero(s[..|s| - 1], k);
    }
  }

  predicate AllPositive(s: seq<int>)
  {
    forall i :: 0 <= i < |s| ==> s[i] > 0
  }

  lemma {:induction false} ProdPositive(s: seq<int>)
    requires AllPositive(s)
    ensures Prod(s) > 0
  {
    if |s| > 0 {
      ProdPositive(s[..|s| - 1]);
      MulPositive(Prod(s[..|s| - 1]), s[|s| - 1]);
    }
  }

  /** A product of factors taken from [0, 1] stays in [0, 1]. */
  lemma {:induction false} RealProdInUnit(s: seq<real>)
    requires forall i :: 0 <= i < |s| ==> 0.0 <= s[i] <= 1.0
    ensures 0.0 <= RealProd(s) <= 1.0
  {
    if |s| > 0 {
      var p, x := RealProd(s[..|s| - 1]), s[|s| - 1];
      RealProdInUnit(s[..|s| - 1]);
      RealMulInUnit(p, x);
      assert RealProd(s) == p * x;
    }
  }

  lemma RealMulInUnit(p: real, x: real)
    requires 0.0 <= p <= 1.0 && 0.0 <= x <= 1.0
    ensures 0.0 <= p * x <= p
  {
    assert p * x >= 0.0 * x;
    assert p - p * x == p * (1.0 - x);
    assert p * (1.0 - x) >= 0.0;
  }

  function Min(a: real, b: real): real { if a <= b then a else b }

  function Max(a: real, b: real): real { if a >= b then a else b }

  /** numpy.clip(x, a_min=lo, a_max=hi), which numpy computes as
      minimum(maximum(x, lo), hi). */
  function Clip(x: real, lo: real, hi: real): (r: real)
    ensures lo <= hi ==> lo <= r <= hi
    ensures lo <= x <= hi ==> r == x
    ensures r == hi || r == lo || r == x
    ensures x > hi ==> r == hi
    ensures x < lo <= hi ==> r == lo
  {
    Min(Max(x, lo), hi)
  }

  /** A 2-D array given by its rows. */
  type Matrix<T> = seq<seq<T>>

  predicate Rectangular<T>(m: Matrix<T>, width: int)
  {
    forall i :: 0 <= i < |m| ==> |m[i]| == width
  }

  /** Ascending order, with ties allowed. */
  predicate Sorted(s: seq<real>)
  {
    forall i, j :: 0 <= i < j < |s| ==> s[i] <= s[j]
  }

  lemma MulPositive(a: int, b: int)
    requires a > 0 && b > 0
    ensures a * b > 0
  {
  }

  /** Row i of an n-by-m block, offset j, lies inside the block. */
  lemma MulIndexBound(i: int, j: int, n: int, m: int)
    requires 0 <= i < n && 0 <= j < m
    ensures 0 <= i * m + j < n * m
  {
    assert i * m <= (n - 1) * m by {
      MulMonotone(i, n - 1, m);
    }
    assert (n - 1) * m + m == n * m;
  }

  lemma MulMonotone(a: int, b: int, m: int)
    requires a <= b && m >= 0
    ensures a * m <= b * m
  {
    assert b * m - a * m == (b - a) * m;
  }

  lemma MulNonNeg(a: int, b: int)
    requires a >= 0 && b >= 0
    ensures a * b >= 0
  {
  }

  /** Splitting a flat index into (row, column) of an n-by-m block. */
  lemma DivBound(k: int, n: int, m: int)
    requires 0 <= k < n * m && m > 0
    ensures 0 <= k / m < n
    ensures k == (k / m) * m + k % m && 0 <= k % m < m
  {
    if k / m >= n {
      MulMonotone(n, k / m, m);
    }
  }

  /** Flat position i * m + j decodes back to (i, j). */
  lemma DivMulAdd(i: int, j: int, m: int)
    requires i >= 0 && 0 <= j < m
    ensures (i * m + j) / m == i && (i * m + j) % m == j
  {
    var k := i * m + j;
    assert k == (k / m) * m + k % m;
    if k / m > i {
      MulMonotone(i + 1, k / m, m);
    } else if k / m < i {
      MulMonotone(k / m + 1, i, m);
    }
  }
}
