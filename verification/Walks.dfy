/** Rows of probabilities, moved by matrices of probabilities. */
module Walks {
  import opened Sums

  type Matrix = seq<seq<real>>

  predicate Square(t: Matrix, n: nat)
  {
    |t| == n && forall i :: 0 <= i < n ==> |t[i]| == n
  }

  function At(t: Matrix): Grid
  {
    (i: nat, j: nat) => if i < |t| && j < |t[i]| then t[i][j] else 0.0
  }

  function Cells(d: seq<real>): Row
  {
    (i: nat) => if i < |d| then d[i] else 0.0
  }

  ghost predicate Nonnegative(f: Row, n: nat)
  {
    forall i: nat {:trigger f(i)} :: i < n ==> f(i) >= 0.0
  }

  /** A row of probabilities. */
  ghost predicate Distribution(f: Row, n: nat)
  {
    Nonnegative(f, n) && Sum(f, n) == 1.0
  }

  ghost predicate RowDistributed(g: Grid, n: nat, i: nat)
  {
    i < n ==> Distribution(RowOf(g, i), n)
  }

  /** All rows are rows of probabilities. */
  ghost predicate Stochastic(g: Grid, n: nat)
  {
    forall i: nat {:trigger RowDistributed(g, n, i)} :: RowDistributed(g, n, i)
  }

  // Multiplication.

  function Products(f: Row, g: Grid, j: nat): Row
  {
    (k: nat) => f(k) * g(k, j)
  }

  /** A row times a matrix. */
  function Times(f: Row, g: Grid, n: nat): Row
  {
    (j: nat) => Sum(Products(f, g, j), n)
  }

  lemma {:induction false} SumNonnegative(f: Row, n: nat)
    requires Nonnegative(f, n)
    ensures Sum(f, n) >= 0.0
    decreases n
  {
    if n > 0 {
      assert f(n - 1) >= 0.0;
      SumNonnegative(f, n - 1);
    }
  }

  function Flipped(g: Grid): Grid
  {
    (i: nat, j: nat) => g(j, i)
  }

  /** Adding up by rows or by columns. */
  lemma {:induction false} SwapTotal(g: Grid, n: nat, m: nat)
    ensures Total(g, n, m) == Total(Flipped(g), m, n)
    decreases m
  {
    if m == 0 {
      SumConst(RowSum(g, 0), 0.0, n);
    } else {
      TotalLastColumn(g, n, m - 1);
      SwapTotal(g, n, m - 1);
      SumSame((i: nat) => g(i, m - 1), RowOf(Flipped(g), m - 1), n);
    }
  }

  function Weighted(f: Row, g: Grid): Grid
  {
    (k: nat, j: nat) => f(k) * g(k, j)
  }

  /** A matrix of probabilities keeps the sum of a row. */
  lemma TimesKeepsSum(f: Row, g: Grid, n: nat)
    requires Stochastic(g, n)
    ensures Sum(Times(f, g, n), n) == Sum(f, n)
  {
    var w := Weighted(f, g);
    forall k: nat {:trigger f(k)} | k < n
      ensures RowSum(w, n)(k) == f(k)
    {
      assert RowDistributed(g, n, k);
      SumScale(RowOf(g, k), RowOf(w, k), f(k), n);
    }
    SumSame(RowSum(w, n), f, n);
    SwapTotal(w, n, n);
    forall j: nat {:trigger Times(f, g, n)(j)} | j < n
      ensures RowSum(Flipped(w), n)(j) == Times(f, g, n)(j)
    {
      SumSame(RowOf(Flipped(w), j), Products(f, g, j), n);
    }
    SumSame(RowSum(Flipped(w), n), Times(f, g, n), n);
  }

  lemma TimesNonnegative(f: Row, g: Grid, n: nat)
    requires Nonnegative(f, n) && Stochastic(g, n)
    ensures Nonnegative(Times(f, g, n), n)
  {
    forall j: nat {:trigger Times(f, g, n)(j)} | j < n
      ensures Times(f, g, n)(j) >= 0.0
    {
      var products := Products(f, g, j);
      forall k: nat {:trigger products(k)} | k < n
        ensures products(k) >= 0.0
      {
        assert RowDistributed(g, n, k);
        assert RowOf(g, k)(j) >= 0.0 && f(k) >= 0.0;
      }
      SumNonnegative(products, n);
    }
  }

  /** Probabilities remain probabilities. */
  lemma TimesDistributed(f: Row, g: Grid, n: nat)
    requires Distribution(f, n) && Stochastic(g, n)
    ensures Distribution(Times(f, g, n), n)
  {
    TimesKeepsSum(f, g, n);
    TimesNonnegative(f, g, n);
  }

  function Dot(a: Matrix, b: Matrix, n: nat): Matrix
  {
    seq(n, i requires 0 <= i < n => DotRow(RowOf(At(a), i), b, n))
  }

  function DotRow(f: Row, b: Matrix, n: nat): seq<real>
  {
    seq(n, j requires 0 <= j < n => Sum(Products(f, At(b), j), n))
  }

  lemma DotRowDistributed(f: Row, b: Matrix, n: nat, c: Row)
    requires Distribution(f, n) && Stochastic(At(b), n)
    requires forall j: nat {:trigger c(j)} :: j < n ==> c(j) == DotRow(f, b, n)[j]
    ensures Distribution(c, n)
  {
    var times := Times(f, At(b), n);
    TimesDistributed(f, At(b), n);
    SumSame(c, times, n);
    forall j: nat {:trigger c(j)} | j < n
      ensures c(j) >= 0.0
    {
      assert times(j) >= 0.0;
    }
  }

  /** The product of two matrices of probabilities is one. */
  lemma DotStochastic(a: Matrix, b: Matrix, n: nat)
    requires Square(a, n) && Square(b, n) && Stochastic(At(a), n) && Stochastic(At(b), n)
    ensures Square(Dot(a, b, n), n) && Stochastic(At(Dot(a, b, n)), n)
  {
    var c := Dot(a, b, n);
    forall i: nat {:trigger RowDistributed(At(c), n, i)}
      ensures RowDistributed(At(c), n, i)
    {
      if i < n {
        assert RowDistributed(At(a), n, i);
        DotRowDistributed(RowOf(At(a), i), b, n, RowOf(At(c), i));
      }
    }
  }

  // Several steps.

  /** A row after `k` steps. */
  function Moved(f: Row, g: Grid, n: nat, k: nat): Row
  {
    if k == 0 then f else Times(Moved(f, g, n, k - 1), g, n)
  }

  ghost predicate Same(f: Row, h: Row, n: nat)
  {
    forall i: nat {:trigger f(i)} {:trigger h(i)} :: i < n ==> f(i) == h(i)
  }

  ghost predicate SameGrid(g: Grid, h: Grid, n: nat)
  {
    forall i: nat, j: nat {:trigger g(i, j)} {:trigger h(i, j)} :: i < n && j < n ==> g(i, j) == h(i, j)
  }

  lemma TimesSame(f: Row, f': Row, g: Grid, g': Grid, n: nat)
    requires Same(f, f', n) && SameGrid(g, g', n)
    ensures Same(Times(f, g, n), Times(f', g', n), n)
  {
    forall j: nat {:trigger Times(f, g, n)(j)} | j < n
      ensures Times(f, g, n)(j) == Times(f', g', n)(j)
    {
      SumSame(Products(f, g, j), Products(f', g', j), n);
    }
  }

  lemma {:induction false} MovedSame(f: Row, f': Row, g: Grid, g': Grid, n: nat, k: nat)
    requires Same(f, f', n) && SameGrid(g, g', n)
    ensures Same(Moved(f, g, n, k), Moved(f', g', n, k), n)
    decreases k
  {
    if k > 0 {
      MovedSame(f, f', g, g', n, k - 1);
      TimesSame(Moved(f, g, n, k - 1), Moved(f', g', n, k - 1), g, g', n);
    }
  }

  lemma {:induction false} MovedOn(f: Row, g: Grid, n: nat, j: nat, k: nat)
    ensures Moved(Moved(f, g, n, j), g, n, k) == Moved(f, g, n, j + k)
    decreases k
  {
    if k > 0 { MovedOn(f, g, n, j, k - 1); }
  }

  lemma {:induction false} MovedDistributed(f: Row, g: Grid, n: nat, k: nat)
    requires Distribution(f, n) && Stochastic(g, n)
    ensures Distribution(Moved(f, g, n, k), n)
    decreases k
  {
    if k > 0 {
      MovedDistributed(f, g, n, k - 1);
      TimesDistributed(Moved(f, g, n, k - 1), g, n);
    }
  }

  function Triple(f: Row, a: Grid, b: Grid, j: nat): Grid
  {
    (k: nat, l: nat) => f(k) * a(k, l) * b(l, j)
  }

  /** Each place of a row times a product is the sum of a grid of triple products, by rows. */
  lemma ByRows(f: Row, a: Matrix, b: Matrix, n: nat, j: nat)
    requires j < n
    ensures Times(f, At(Dot(a, b, n)), n)(j) == Total(Triple(f, At(a), At(b), j), n, n)
  {
    var w, c := Triple(f, At(a), At(b), j), At(Dot(a, b, n));
    forall k: nat {:trigger Products(f, c, j)(k)} | k < n
      ensures Products(f, c, j)(k) == RowSum(w, n)(k)
    {
      SumScale(Products(RowOf(At(a), k), At(b), j), RowOf(w, k), f(k), n);
    }
    SumSame(Products(f, c, j), RowSum(w, n), n);
  }

  lemma ByColumns(f: Row, a: Grid, b: Grid, n: nat, j: nat)
    ensures Times(Times(f, a, n), b, n)(j) == Total(Flipped(Triple(f, a, b, j)), n, n)
  {
    var w := Flipped(Triple(f, a, b, j));
    forall l: nat {:trigger RowSum(w, n)(l)} | l < n
      ensures Products(Times(f, a, n), b, j)(l) == RowSum(w, n)(l)
    {
      SumScale(Products(f, a, l), RowOf(w, l), b(l, j), n);
    }
    SumSame(Products(Times(f, a, n), b, j), RowSum(w, n), n);
  }

  /** A step with a product of matrices is a step with each. */
  lemma TimesDot(f: Row, a: Matrix, b: Matrix, n: nat)
    ensures Same(Times(f, At(Dot(a, b, n)), n), Times(Times(f, At(a), n), At(b), n), n)
  {
    forall j: nat {:trigger Times(f, At(Dot(a, b, n)), n)(j)} | j < n
      ensures Times(f, At(Dot(a, b, n)), n)(j) == Times(Times(f, At(a), n), At(b), n)(j)
    {
      ByRows(f, a, b, n, j);
      ByColumns(f, At(a), At(b), n, j);
      SwapTotal(Triple(f, At(a), At(b), j), n, n);
    }
  }

  /** A step with `t` is `p` steps with `g`. */
  ghost predicate Leaps(t: Matrix, g: Grid, n: nat, p: nat)
  {
    forall f: Row {:trigger Moved(f, g, n, p)} :: Same(Times(f, At(t), n), Moved(f, g, n, p), n)
  }

  lemma OneStep(t: Matrix, n: nat)
    ensures Leaps(t, At(t), n, 1)
  {
    forall f: Row {:trigger Moved(f, At(t), n, 1)}
      ensures Same(Times(f, At(t), n), Moved(f, At(t), n, 1), n)
    {
      assert Moved(f, At(t), n, 0) == f;
    }
  }

  /** The square of a matrix leaps twice as far. */
  lemma SquareLeaps(t: Matrix, g: Grid, n: nat, p: nat)
    requires Leaps(t, g, n, p)
    ensures Leaps(Dot(t, t, n), g, n, 2 * p)
  {
    forall f: Row {:trigger Moved(f, g, n, 2 * p)}
      ensures Same(Times(f, At(Dot(t, t, n)), n), Moved(f, g, n, 2 * p), n)
    {
      var once := Times(f, At(t), n);
      TimesDot(f, t, t, n);
      assert Same(once, Moved(f, g, n, p), n);
      assert Same(Times(once, At(t), n), Moved(once, g, n, p), n);
      MovedSame(once, Moved(f, g, n, p), g, g, n, p);
      MovedOn(f, g, n, p, p);
    }
  }

  /** A row after `s` leaps, and one more. */
  lemma LeapOn(d: Row, start: Row, t: Matrix, g: Grid, n: nat, p: nat, s: nat)
    requires Leaps(t, g, n, p) && Same(d, Moved(start, g, n, p * s), n)
    ensures Same(Times(d, At(t), n), Moved(start, g, n, p * (s + 1)), n)
  {
    var far := Moved(start, g, n, p * s);
    assert Same(Times(d, At(t), n), Moved(d, g, n, p), n);
    MovedSame(d, far, g, g, n, p);
    MovedOn(start, g, n, p * s, p);
    assert p * s + p == p * (s + 1);
  }

  function Power(x: real, k: nat): real
  {
    if k == 0 then 1.0 else x * Power(x, k - 1)
  }
}
