/** Finite sums of real numbers. */
module Sums {

  type Row = nat -> real
  type Grid = (nat, nat) -> real

  function Sum(f: Row, n: nat): real
  {
    if n == 0 then 0.0 else Sum(f, n - 1) + f(n - 1)
  }

  lemma {:induction false} SumLe(f: Row, g: Row, n: nat)
    requires forall i: nat {:trigger f(i)} {:trigger g(i)} :: i < n ==> f(i) <= g(i)
    ensures Sum(f, n) <= Sum(g, n)
    decreases n
  {
    if n > 0 {
      assert f(n - 1) <= g(n - 1);
      SumLe(f, g, n - 1);
    }
  }

  lemma SumSame(f: Row, g: Row, n: nat)
    requires forall i: nat {:trigger f(i)} {:trigger g(i)} :: i < n ==> f(i) == g(i)
    ensures Sum(f, n) == Sum(g, n)
  {
    SumLe(f, g, n);
    SumLe(g, f, n);
  }

  lemma {:induction false} SumAdd(f: Row, g: Row, h: Row, n: nat)
    requires forall i: nat {:trigger h(i)} :: i < n ==> h(i) == f(i) + g(i)
    ensures Sum(h, n) == Sum(f, n) + Sum(g, n)
    decreases n
  {
    if n > 0 {
      assert h(n - 1) == f(n - 1) + g(n - 1);
      SumAdd(f, g, h, n - 1);
    }
  }

  lemma {:induction false} SumScale(f: Row, h: Row, c: real, n: nat)
    requires forall i: nat {:trigger h(i)} :: i < n ==> h(i) == c * f(i)
    ensures Sum(h, n) == c * Sum(f, n)
    decreases n
  {
    if n > 0 {
      assert h(n - 1) == c * f(n - 1);
      SumScale(f, h, c, n - 1);
    }
  }

  lemma DistributeReal(c: real, x: real)
    ensures c * (x + 1.0) == c * x + c
  {
  }

  lemma Distribute(c: real, n: nat)
    ensures c * (n + 1) as real == c * n as real + c
  {
    DistributeReal(c, n as real);
    assert (n + 1) as real == n as real + 1.0;
  }

  lemma {:induction false} SumConst(f: Row, c: real, n: nat)
    requires forall i: nat {:trigger f(i)} :: i < n ==> f(i) == c
    ensures Sum(f, n) == c * n as real
    decreases n
  {
    if n > 0 {
      assert f(n - 1) == c;
      SumConst(f, c, n - 1);
      Distribute(c, n - 1);
    }
  }

  /** Changing one term changes the sum by as much. */
  lemma {:induction false} SumBump(f: Row, h: Row, a: nat, n: nat)
    requires forall i: nat {:trigger h(i)} :: i < n && i != a ==> h(i) == f(i)
    ensures Sum(h, n) == Sum(f, n) + if a < n then h(a) - f(a) else 0.0
    decreases n
  {
    if n > 0 {
      assert n - 1 != a ==> h(n - 1) == f(n - 1);
      SumBump(f, h, a, n - 1);
    }
  }

  function RowOf(g: Grid, i: nat): Row
  {
    (j: nat) => g(i, j)
  }

  /** The rows of a grid, each added up. */
  function RowSum(g: Grid, m: nat): Row
  {
    (i: nat) => Sum(RowOf(g, i), m)
  }

  /** All of a grid. */
  function Total(g: Grid, n: nat, m: nat): real
  {
    Sum(RowSum(g, m), n)
  }

  lemma {:induction false} TotalLastColumn(g: Grid, n: nat, m: nat)
    ensures Total(g, n, m + 1) == Total(g, n, m) + Sum((i: nat) => g(i, m), n)
  {
    forall i: nat | i < n
      ensures RowSum(g, m + 1)(i) == RowSum(g, m)(i) + g(i, m)
    {
    }
    SumAdd(RowSum(g, m), (i: nat) => g(i, m), RowSum(g, m + 1), n);
  }

  /** If each pair of opposite entries is at most zero together, so is the whole. */
  lemma {:induction false} PairsAtMostZero(g: Grid, n: nat)
    requires forall i: nat, j: nat {:trigger g(i, j)} :: i < n && j < n ==> g(i, j) + g(j, i) <= 0.0
    ensures Total(g, n, n) <= 0.0
    decreases n
  {
    if n > 0 {
      var m := n - 1;
      PairsAtMostZero(g, m);
      TotalLastColumn(g, m, m);
      var column, row := (i: nat) => g(i, m), (j: nat) => g(m, j);
      var both, none := (i: nat) => g(i, m) + g(m, i), (i: nat) => 0.0;
      SumAdd(column, row, both, m);
      SumLe(both, none, m);
      SumConst(none, 0.0, m);
      assert g(m, m) + g(m, m) <= 0.0;
    }
  }

  /** The sum of an antisymmetric grid is zero. */
  lemma AntisymmetricTotal(g: Grid, n: nat)
    requires forall i: nat, j: nat {:trigger g(i, j)} :: i < n && j < n ==> g(i, j) == -g(j, i)
    ensures Total(g, n, n) == 0.0
  {
    PairsAtMostZero(g, n);
    var h := (i: nat, j: nat) => -g(i, j);
    PairsAtMostZero(h, n);
    forall i: nat | i < n
      ensures RowSum(h, n)(i) == -1.0 * RowSum(g, n)(i)
    {
      SumScale(RowOf(g, i), RowOf(h, i), -1.0, n);
    }
    SumScale(RowSum(g, n), RowSum(h, n), -1.0, n);
  }
}
