/** The score as the stationary distribution of a Markov chain that moves to the programs one loses to. */
module Markov {
  import opened Sums
  import opened Walks
  import opened HillData

  // The chain of a hill.

  /** The probability to move from program `a` to another program `b`. */
  function Moves(data: seq<seq<Results>>, n: nat, tapecount: nat): Grid
  {
    (a: nat, b: nat) =>
      if Triangular(data, n) && a < n && b < n && a != b && tapecount > 0 then
        Losses(Entry(data, n, tapecount, a, b)) as real / (n * (2 * tapecount)) as real
      else 0.0
  }

  /** What an entry is when the pairs before (a, b) are filled in. */
  function Partial(moves: Grid, a: nat, b: nat, x: nat, y: nat): real
  {
    var i, j := if x < y then x else y, if x < y then y else x;
    if i < a || (i == a && j < b) then moves(x, y) else 0.0
  }

  ghost predicate Filled(t: Matrix, moves: Grid, n: nat, a: nat, b: nat)
  {
    Square(t, n) && forall x: nat, y: nat {:trigger t[x][y]} :: x < n && y < n ==> t[x][y] == Partial(moves, a, b, x, y)
  }

  lemma PairFilled(t: Matrix, moves: Grid, n: nat, a: nat, b: nat)
    requires Filled(t, moves, n, a, b) && a < b < n
    ensures var u := t[a := t[a][b := moves(a, b)]]; Filled(u[b := u[b][a := moves(b, a)]], moves, n, a, b + 1)
  {
  }

  lemma RowFilled(t: Matrix, moves: Grid, n: nat, a: nat)
    requires a < n && moves(a, a) == 0.0
    ensures Filled(t, moves, n, a, a) ==> Filled(t, moves, n, a, a + 1)
    ensures Filled(t, moves, n, a, n) ==> Filled(t, moves, n, a + 1, a + 1)
  {
  }

  lemma MovesAre(matrix: ResultMatrix, moves: Grid, a: nat, b: nat)
    requires matrix.Valid() && matrix.tapecount > 0 && moves == Moves(matrix.data, matrix.size, matrix.tapecount)
    requires a < b < matrix.size
    ensures moves(a, b) == Losses(matrix.Get(a, b)) as real / (matrix.size * (2 * matrix.tapecount)) as real
    ensures moves(b, a) == Wins(matrix.Get(a, b)) as real / (matrix.size * (2 * matrix.tapecount)) as real
  {
    Antisymmetric(matrix.data, matrix.size, matrix.tapecount, a, b);
    WinsAreLosses(matrix.Get(a, b));
  }

  /** The probabilities to move to another program. */
  method FillMoves(matrix: ResultMatrix, ghost moves: Grid) returns (t: Matrix)
    requires matrix.Valid() && matrix.tapecount > 0 && moves == Moves(matrix.data, matrix.size, matrix.tapecount)
    ensures Filled(t, moves, matrix.size, matrix.size - 1, matrix.size - 1)
  {
    var n, k := matrix.size, 2 * matrix.tapecount;
    t := seq(n, _ => seq(n, _ => 0.0));
    for idA := 0 to n - 1
      invariant Filled(t, moves, n, idA, idA)
    {
      RowFilled(t, moves, n, idA);
      for idB := idA + 1 to n
        invariant Filled(t, moves, n, idA, idB)
      {
        var results := matrix.Get(idA, idB);
        var lossAB, lossBA := Losses(results), Wins(results);
        MovesAre(matrix, moves, idA, idB);
        PairFilled(t, moves, n, idA, idB);
        t := t[idA := t[idA][idB := lossAB as real / (n * k) as real]];
        t := t[idB := t[idB][idA := lossBA as real / (n * k) as real]];
      }
      RowFilled(t, moves, n, idA);
    }
  }

  lemma Share(losses: real, n: real, k: real)
    requires 0.0 <= losses <= k && n >= 1.0 && k >= 1.0
    ensures n * k >= 1.0 && 0.0 <= losses / (n * k) <= 1.0 / n
  {
    assert (n - 1.0) * (k - 1.0) >= 0.0;
    var nk := n * k;
    assert nk >= 1.0;
    var q, r := losses / nk, 1.0 / n;
    assert q * nk == losses;
    assert r * n == 1.0;
    ShareBound(q, r, losses, n, k, nk);
  }

  lemma ShareBound(q: real, r: real, losses: real, n: real, k: real, nk: real)
    requires 0.0 <= losses <= k && nk == n * k && nk >= 1.0 && q * nk == losses && r * n == 1.0
    ensures 0.0 <= q <= r
  {
    Factor(q, nk);
    assert r * nk == (r * n) * k;
    assert (r * n) * k == k;
    assert (r - q) * nk == k - losses;
    Factor(r - q, nk);
  }

  lemma ShareOf(losses: nat, n: nat, k: nat)
    requires losses <= k && n >= 1 && k >= 1
    ensures n * k >= 1 && 0.0 <= losses as real / (n * k) as real <= 1.0 / n as real
  {
    assert (n - 1) * (k - 1) >= 0;
    assert (n * k) as real == n as real * k as real;
    Share(losses as real, n as real, k as real);
  }

  lemma MovesRange(data: seq<seq<Results>>, n: nat, tapecount: nat, i: nat, j: nat)
    requires Proper(data, n, tapecount) && tapecount > 0 && i < n && j < n
    ensures 0.0 <= Moves(data, n, tapecount)(i, j) <= 1.0 / n as real
  {
    if i == j {
      ShareOf(0, n, 1);
    } else {
      assert Outcomes(Entry(data, n, tapecount, i, j));
      ShareOf(Losses(Entry(data, n, tapecount, i, j)), n, 2 * tapecount);
    }
  }

  /** The probability to stay is what remains. */
  function WithDiagonal(t: Matrix, n: nat): Matrix
    requires Square(t, n)
  {
    seq(n, i requires 0 <= i < n => t[i][i := t[i][i] + (1.0 - Sum(RowOf(At(t), i), n))])
  }

  lemma DiagonalRow(t: Matrix, moves: Grid, n: nat, i: nat)
    requires Square(t, n) && i < n && n >= 1
    requires forall x: nat, y: nat {:trigger t[x][y]} :: x < n && y < n ==> t[x][y] == moves(x, y)
    requires forall y: nat {:trigger moves(i, y)} :: y < n ==> 0.0 <= moves(i, y) <= 1.0 / n as real
    ensures Distribution(RowOf(At(WithDiagonal(t, n)), i), n)
  {
    var before, after := RowOf(At(t), i), RowOf(At(WithDiagonal(t, n)), i);
    var share: Row := (j: nat) => 1.0 / n as real;
    forall j: nat {:trigger before(j)} | j < n
      ensures 0.0 <= before(j) <= share(j)
    {
      assert t[i][j] == moves(i, j);
    }
    SumLe(before, share, n);
    SumConst(share, 1.0 / n as real, n);
    assert 1.0 / n as real * n as real == 1.0;
    SumBump(before, after, i, n);
  }

  /** The transition probabilities: to move, and to stay. */
  function Transitions(data: seq<seq<Results>>, n: nat, tapecount: nat): Grid
  {
    var moves := Moves(data, n, tapecount);
    (a: nat, b: nat) => if a == b then 1.0 - Sum(RowOf(moves, a), n) else moves(a, b)
  }

  lemma StayingIs(t: Matrix, moves: Grid, n: nat, i: nat)
    requires Square(t, n) && i < n && moves(i, i) == 0.0
    requires forall x: nat, y: nat {:trigger t[x][y]} :: x < n && y < n ==> t[x][y] == moves(x, y)
    ensures WithDiagonal(t, n)[i][i] == 1.0 - Sum(RowOf(moves, i), n)
  {
    SumSame(RowOf(At(t), i), RowOf(moves, i), n);
  }

  /** The filled matrix with its diagonal holds the transition probabilities. */
  lemma FilledTransitions(m: Matrix, data: seq<seq<Results>>, n: nat, tapecount: nat)
    requires Proper(data, n, tapecount) && tapecount > 0 && Square(m, n)
    requires forall x: nat, y: nat {:trigger m[x][y]} :: x < n && y < n ==> m[x][y] == Moves(data, n, tapecount)(x, y)
    ensures SameGrid(At(WithDiagonal(m, n)), Transitions(data, n, tapecount), n)
    ensures Stochastic(At(WithDiagonal(m, n)), n)
  {
    var t, moves := WithDiagonal(m, n), Moves(data, n, tapecount);
    forall i: nat, j: nat {:trigger At(t)(i, j)} | i < n && j < n
      ensures At(t)(i, j) == Transitions(data, n, tapecount)(i, j)
    {
      StayingIs(m, moves, n, i);
    }
    forall i: nat {:trigger RowDistributed(At(t), n, i)}
      ensures RowDistributed(At(t), n, i)
    {
      if i < n {
        forall y: nat {:trigger moves(i, y)} | y < n
          ensures 0.0 <= moves(i, y) <= 1.0 / n as real
        {
          MovesRange(data, n, tapecount, i, y);
        }
        DiagonalRow(m, moves, n, i);
      }
    }
  }

  lemma TransitionsStochastic(data: seq<seq<Results>>, n: nat, tapecount: nat)
    requires Proper(data, n, tapecount) && tapecount > 0
    ensures Stochastic(Transitions(data, n, tapecount), n)
  {
    var g, moves := Transitions(data, n, tapecount), Moves(data, n, tapecount);
    var m := seq(n, i requires 0 <= i < n => seq(n, j requires 0 <= j < n => moves(i, j)));
    FilledTransitions(m, data, n, tapecount);
    forall i: nat {:trigger RowDistributed(g, n, i)}
      ensures RowDistributed(g, n, i)
    {
      if i < n { SameRowDistributed(At(WithDiagonal(m, n)), g, n, i); }
    }
  }

  lemma SameRowDistributed(g: Grid, h: Grid, n: nat, i: nat)
    requires SameGrid(g, h, n) && Stochastic(g, n) && i < n
    ensures Distribution(RowOf(h, i), n)
  {
    assert RowDistributed(g, n, i);
    var row, other := RowOf(g, i), RowOf(h, i);
    forall j: nat {:trigger other(j)} | j < n
      ensures other(j) == row(j) >= 0.0
    {
      assert g(i, j) == h(i, j);
    }
    SumSame(row, other, n);
  }

  /** The transition probabilities of a hill. */
  method Chain(matrix: ResultMatrix) returns (t: Matrix)
    requires matrix.Valid() && matrix.tapecount > 0 && Proper(matrix.data, matrix.size, matrix.tapecount)
    ensures Square(t, matrix.size) && Stochastic(At(t), matrix.size)
    ensures SameGrid(At(t), Transitions(matrix.data, matrix.size, matrix.tapecount), matrix.size)
  {
    var n := matrix.size;
    ghost var moves := Moves(matrix.data, n, matrix.tapecount);
    var m := FillMoves(matrix, moves);
    LastFilled(m, moves, n);
    t := WithDiagonal(m, n);
    FilledTransitions(m, matrix.data, n, matrix.tapecount);
  }

  lemma LastFilled(t: Matrix, moves: Grid, n: nat)
    requires n >= 1 && Filled(t, moves, n, n - 1, n - 1) && moves(n - 1, n - 1) == 0.0
    ensures forall x: nat, y: nat {:trigger t[x][y]} :: x < n && y < n ==> t[x][y] == moves(x, y)
  {
  }

  // Following the chain.

  function Distance(x: real, y: real): (d: real)
    ensures d >= 0.0 && (d == x - y || d == y - x)
  {
    if x < y then y - x else x - y
  }

  /** The mean distance between the places of two rows. */
  function MeanChange(f: Row, h: Row, n: nat): real
    requires n >= 1
  {
    Sum((i: nat) => Distance(f(i), h(i)), n) / n as real
  }

  lemma MeanChangeSame(f: Row, f': Row, h: Row, h': Row, n: nat)
    requires n >= 1 && Same(f, f', n) && Same(h, h', n)
    ensures MeanChange(f, h, n) == MeanChange(f', h', n)
  {
    SumSame((i: nat) => Distance(f(i), h(i)), (i: nat) => Distance(f'(i), h'(i)), n);
  }

  /** All programs alike. */
  function Uniform(n: nat): Row
  {
    (i: nat) => if n == 0 then 0.0 else 1.0 / n as real
  }

  lemma UniformDistributed(n: nat)
    requires n >= 1
    ensures Distribution(Uniform(n), n)
  {
    ShareOf(0, n, 1);
    SumConst(Uniform(n), 1.0 / n as real, n);
    assert 1.0 / n as real * n as real == 1.0;
  }

  /** The row after `s` rounds of 32 steps. */
  function Round(g: Grid, n: nat, s: nat): Row
  {
    Moved(Uniform(n), g, n, 32 * s)
  }

  /** How much round `s` changes. */
  function RoundChange(g: Grid, n: nat, s: nat): real
    requires n >= 1 && s >= 1
  {
    MeanChange(Round(g, n, s), Round(g, n, s - 1), n)
  }

  /** The first round that changes hardly anything, or the hundredth. */
  ghost predicate Settled(g: Grid, n: nat, m: nat)
    requires n >= 1
  {
    && 1 <= m <= 100 && (m == 100 || RoundChange(g, n, m) < 0.000001)
    && forall s: nat {:trigger RoundChange(g, n, s)} :: 1 <= s < m ==> RoundChange(g, n, s) >= 0.000001
  }

  /** There is one such round. */
  lemma SettledOnce(g: Grid, n: nat, m: nat, m': nat)
    requires n >= 1 && Settled(g, n, m) && Settled(g, n, m')
    ensures m == m'
  {
  }

  function Doubled(i: nat): nat
  {
    if i == 0 then 1 else 2 * Doubled(i - 1)
  }

  /** Squaring the matrix five times. */
  method Speed(chain: Matrix, n: nat) returns (t: Matrix)
    requires n >= 1 && Square(chain, n)
    ensures Square(t, n) && Leaps(t, At(chain), n, 32)
  {
    t := chain;
    OneStep(chain, n);
    for i := 1 to 6
      invariant Square(t, n) && Leaps(t, At(chain), n, Doubled(i - 1))
    {
      SquareLeaps(t, At(chain), n, Doubled(i - 1));
      t := Dot(t, t, n);
    }
    assert Doubled(5) == 32;
  }

  /** One round. */
  lemma NextRound(d: seq<real>, pd: seq<real>, t: Matrix, g: Grid, n: nat, s: nat)
    requires n >= 1 && Leaps(t, g, n, 32) && |pd| == n && d == DotRow(Cells(pd), t, n) && Same(Cells(pd), Round(g, n, s), n)
    ensures Same(Cells(d), Round(g, n, s + 1), n)
    ensures MeanChange(Cells(d), Cells(pd), n) == RoundChange(g, n, s + 1)
  {
    LeapOn(Cells(pd), Uniform(n), t, g, n, 32, s);
    var next := Times(Cells(pd), At(t), n);
    forall j: nat {:trigger Cells(d)(j)} | j < n
      ensures Cells(d)(j) == next(j) == Round(g, n, s + 1)(j)
    {
    }
    MeanChangeSame(Cells(d), Round(g, n, s + 1), Cells(pd), Round(g, n, s), n);
  }

  /** Squares the matrix a few times and then follows the chain until it hardly changes, but not for
      ever. */
  method Converge(chain: Matrix, n: nat) returns (d: seq<real>, ghost m: nat)
    requires n >= 1 && Square(chain, n)
    ensures |d| == n && Settled(At(chain), n, m) && Same(Cells(d), Round(At(chain), n, m), n)
  {
    ghost var g := At(chain);
    var t := Speed(chain, n);
    d := seq(n, _ => 1.0 / n as real);
    m := 0;
    for step := 1 to 101
      invariant |d| == n && m == step - 1 && Same(Cells(d), Round(g, n, m), n)
      invariant forall s: nat {:trigger RoundChange(g, n, s)} :: 1 <= s <= m ==> RoundChange(g, n, s) >= 0.000001
    {
      var pd := d;
      d := DotRow(Cells(pd), t, n);
      NextRound(d, pd, t, g, n, m);
      m := m + 1;
      if MeanChange(Cells(d), Cells(pd), n) < 0.000001 { break; }
    }
  }

  // The scores.

  ghost function ChainOf(h: Hill): Grid
    requires h.Valid()
    reads h, h.results
  {
    Transitions(h.results.data, |h.hill|, h.tapecount)
  }

  lemma SameSettled(g: Grid, g': Grid, n: nat, m: nat)
    requires n >= 1 && SameGrid(g, g', n) && Settled(g, n, m)
    ensures Settled(g', n, m)
  {
    forall s: nat {:trigger RoundChange(g', n, s)} | 1 <= s <= m
      ensures RoundChange(g', n, s) == RoundChange(g, n, s)
    {
      SameRound(g, g', n, s);
      SameRound(g, g', n, s - 1);
      MeanChangeSame(Round(g, n, s), Round(g', n, s), Round(g, n, s - 1), Round(g', n, s - 1), n);
    }
    assert RoundChange(g', n, m) == RoundChange(g, n, m);
  }

  lemma SameRound(g: Grid, g': Grid, n: nat, s: nat)
    requires SameGrid(g, g', n)
    ensures Same(Round(g, n, s), Round(g', n, s), n)
  {
    MovedSame(Uniform(n), Uniform(n), g, g', n, 32 * s);
  }

  /** The scores of the programs, by number. */
  function ScoresOf(scores: map<string, real>, names: seq<string>): Row
  {
    (i: nat) => if i < |names| && names[i] in scores then scores[names[i]] else 0.0
  }

  /** The scores: the uniform row, moved by the chain until it settles, times 1000. */
  method Score(h: Hill) returns (scores: map<string, real>, ghost m: nat)
    requires h.Valid() && h.tapecount > 0 && Proper(h.results.data, |h.hill|, h.tapecount)
    ensures scores.Keys == h.progs.Keys && Settled(ChainOf(h), |h.hill|, m)
    ensures forall i: nat {:trigger h.hill[i]} :: i < |h.hill| ==>
              h.hill[i] in scores && scores[h.hill[i]] == 1000.0 * Round(ChainOf(h), |h.hill|, m)(i)
  {
    var n := |h.hill|;
    var t := Chain(h.results);
    var d;
    d, m := Converge(t, n);
    SameSettled(At(t), ChainOf(h), n, m);
    SameRound(At(t), ChainOf(h), n, m);
    var values := seq(n, i requires 0 <= i < n => 1000.0 * d[i]);
    scores := ByName(h, values);
    forall i: nat {:trigger h.hill[i]} | i < n
      ensures h.hill[i] in scores && scores[h.hill[i]] == 1000.0 * Round(ChainOf(h), n, m)(i)
    {
      assert scores[h.hill[i]] == values[i] && Cells(d)(i) == d[i];
    }
  }

  lemma SharesDistributed(data: seq<seq<Results>>, n: nat, tapecount: nat, m: nat)
    requires Proper(data, n, tapecount) && tapecount > 0
    ensures Distribution(Round(Transitions(data, n, tapecount), n, m), n)
  {
    TransitionsStochastic(data, n, tapecount);
    UniformDistributed(n);
    MovedDistributed(Uniform(n), Transitions(data, n, tapecount), n, 32 * m);
  }

  lemma Thousand(all: Row, row: Row, n: nat)
    requires Distribution(row, n) && forall i: nat {:trigger all(i)} :: i < n ==> all(i) == 1000.0 * row(i)
    ensures Nonnegative(all, n) && Sum(all, n) == 1000.0
  {
    forall i: nat {:trigger all(i)} | i < n
      ensures all(i) >= 0.0
    {
      assert row(i) >= 0.0;
    }
    SumScale(row, all, 1000.0, n);
  }

  /** No score is negative, and together they make 1000. */
  lemma ScoresShare(h: Hill, m: nat, scores: map<string, real>)
    requires h.Valid() && h.tapecount > 0 && Proper(h.results.data, |h.hill|, h.tapecount)
    requires forall i: nat {:trigger h.hill[i]} :: i < |h.hill| ==>
               h.hill[i] in scores && scores[h.hill[i]] == 1000.0 * Round(ChainOf(h), |h.hill|, m)(i)
    ensures Nonnegative(ScoresOf(scores, h.hill), |h.hill|) && Sum(ScoresOf(scores, h.hill), |h.hill|) == 1000.0
  {
    var n, all, row := |h.hill|, ScoresOf(scores, h.hill), Round(ChainOf(h), |h.hill|, m);
    SharesDistributed(h.results.data, n, h.tapecount, m);
    forall i: nat {:trigger all(i)} | i < n
      ensures all(i) == 1000.0 * row(i)
    {
      assert h.hill[i] in scores;
    }
    Thousand(all, row, n);
  }

  // Programs that always win or always lose.

  lemma ShareIs(n: nat, k: nat)
    requires n >= 1 && k >= 1
    ensures n * k >= 1 && k as real / (n * k) as real == 1.0 / n as real
  {
    ShareOf(k, n, k);
    var q, r := k as real / (n * k) as real, 1.0 / n as real;
    assert r * n as real == 1.0;
    assert (n * k) as real == n as real * k as real;
    assert r * (n * k) as real == (r * n as real) * k as real;
    ShareExact(k as real, (n * k) as real, r);
  }

  lemma ShareExact(a: real, b: real, c: real)
    requires b != 0.0 && c * b == a
    ensures a / b == c
  {
  }

  /** Everybody moves to a program that always wins with probability 1/n, and it stays where it is. */
  lemma WinnerMoves(data: seq<seq<Results>>, n: nat, tapecount: nat, p: nat, a: nat)
    requires Proper(data, n, tapecount) && tapecount > 0 && p < n && a < n && Always(data, n, tapecount, p, 1)
    ensures Moves(data, n, tapecount)(p, a) == 0.0
    ensures a != p ==> Moves(data, n, tapecount)(a, p) == 1.0 / n as real
  {
    if a != p {
      var r := Entry(data, n, tapecount, p, a);
      assert Every(r, 1) && |r| == 2 * tapecount;
      EveryCounted(r, 1);
      Antisymmetric(data, n, tapecount, p, a);
      WinsAreLosses(r);
      ShareIs(n, 2 * tapecount);
      ShareExact(0.0, (n * (2 * tapecount)) as real, 0.0);
    }
  }

  /** A program that always loses moves to everybody else with probability 1/n, and nobody moves to it. */
  lemma LoserMoves(data: seq<seq<Results>>, n: nat, tapecount: nat, p: nat, a: nat)
    requires Proper(data, n, tapecount) && tapecount > 0 && p < n && a < n && Always(data, n, tapecount, p, -1)
    ensures Moves(data, n, tapecount)(a, p) == 0.0
    ensures a != p ==> Moves(data, n, tapecount)(p, a) == 1.0 / n as real
  {
    if a != p {
      var r := Entry(data, n, tapecount, p, a);
      assert Every(r, -1) && |r| == 2 * tapecount;
      EveryCounted(r, -1);
      Antisymmetric(data, n, tapecount, p, a);
      WinsAreLosses(r);
      ShareIs(n, 2 * tapecount);
      ShareExact(0.0, (n * (2 * tapecount)) as real, 0.0);
    }
  }

  lemma WinnerStays(data: seq<seq<Results>>, n: nat, tapecount: nat, p: nat, row: Row)
    requires Proper(data, n, tapecount) && tapecount > 0 && p < n && Always(data, n, tapecount, p, 1)
    requires row == RowOf(Moves(data, n, tapecount), p)
    ensures 1.0 - Sum(row, n) == 1.0
  {
    forall a: nat {:trigger row(a)} | a < n
      ensures row(a) == 0.0
    {
      WinnerMoves(data, n, tapecount, p, a);
    }
    SumConst(row, 0.0, n);
  }

  lemma LoserStays(data: seq<seq<Results>>, n: nat, tapecount: nat, p: nat, row: Row, r: real)
    requires Proper(data, n, tapecount) && tapecount > 0 && p < n && Always(data, n, tapecount, p, -1)
    requires row == RowOf(Moves(data, n, tapecount), p) && r == 1.0 / n as real
    ensures 1.0 - Sum(row, n) == r
  {
    forall a: nat {:trigger row(a)} | a < n
      ensures row(a) == if a == p then 0.0 else r
    {
      LoserMoves(data, n, tapecount, p, a);
    }
    HoleRest(row, p, r, n);
  }

  lemma HoleRest(row: Row, p: nat, r: real, n: nat)
    requires p < n && r == 1.0 / n as real && forall a: nat {:trigger row(a)} :: a < n ==> row(a) == if a == p then 0.0 else r
    ensures 1.0 - Sum(row, n) == r
  {
    SumHole(row, p, r, n);
    Remainder(n, r);
  }

  lemma WinnerColumn(data: seq<seq<Results>>, n: nat, tapecount: nat, p: nat, g: Grid)
    requires Proper(data, n, tapecount) && tapecount > 0 && p < n && Always(data, n, tapecount, p, 1)
    requires g == Transitions(data, n, tapecount)
    ensures forall a: nat {:trigger g(a, p)} :: a < n ==> g(a, p) == if a == p then 1.0 else 1.0 / n as real
  {
    forall a: nat {:trigger g(a, p)} | a < n
      ensures g(a, p) == if a == p then 1.0 else 1.0 / n as real
    {
      if a == p {
        WinnerStays(data, n, tapecount, p, RowOf(Moves(data, n, tapecount), p));
      } else {
        WinnerMoves(data, n, tapecount, p, a);
      }
    }
  }

  lemma LoserColumn(data: seq<seq<Results>>, n: nat, tapecount: nat, p: nat, g: Grid, r: real)
    requires Proper(data, n, tapecount) && tapecount > 0 && p < n && Always(data, n, tapecount, p, -1)
    requires g == Transitions(data, n, tapecount) && r == 1.0 / n as real
    ensures forall a: nat {:trigger g(a, p)} :: a < n ==> g(a, p) == if a == p then r else 0.0
  {
    forall a: nat {:trigger g(a, p)} | a < n
      ensures g(a, p) == if a == p then r else 0.0
    {
      if a == p {
        LoserStays(data, n, tapecount, p, RowOf(Moves(data, n, tapecount), p), r);
      } else {
        LoserMoves(data, n, tapecount, p, a);
      }
    }
  }

  lemma Remainder(n: nat, r: real)
    requires n >= 1 && r == 1.0 / n as real
    ensures 1.0 - r * (n - 1) as real == r
  {
    assert r * n as real == 1.0;
    Distribute(r, n - 1);
  }

  /** What one step does to the winner's share. */
  lemma WinnerStep(f: Row, g: Grid, n: nat, p: nat, r: real)
    requires p < n && Sum(f, n) == 1.0
    requires forall a: nat {:trigger g(a, p)} :: a < n ==> g(a, p) == if a == p then 1.0 else r
    ensures 1.0 - Times(f, g, n)(p) == (1.0 - r) * (1.0 - f(p))
  {
    var even: Row := (k: nat) => r * f(k);
    SumScale(f, even, r, n);
    SumBump(even, Products(f, g, p), p, n);
  }

  lemma LoserStep(f: Row, g: Grid, n: nat, p: nat, r: real)
    requires p < n
    requires forall a: nat {:trigger g(a, p)} :: a < n ==> g(a, p) == if a == p then r else 0.0
    ensures Times(f, g, n)(p) == r * f(p)
  {
    var none: Row := (k: nat) => 0.0;
    SumConst(none, 0.0, n);
    SumBump(none, Products(f, g, p), p, n);
  }

  lemma {:induction false} WinnerShare(g: Grid, n: nat, p: nat, r: real, k: nat)
    requires n >= 1 && p < n && r == 1.0 / n as real && Stochastic(g, n)
    requires forall a: nat {:trigger g(a, p)} :: a < n ==> g(a, p) == if a == p then 1.0 else r
    ensures Moved(Uniform(n), g, n, k)(p) == 1.0 - Power(1.0 - r, k + 1)
    decreases k
  {
    if k == 0 {
      assert Power(1.0 - r, 0) == 1.0;
    } else {
      WinnerShare(g, n, p, r, k - 1);
      UniformDistributed(n);
      MovedDistributed(Uniform(n), g, n, k - 1);
      WinnerStep(Moved(Uniform(n), g, n, k - 1), g, n, p, r);
    }
  }

  lemma {:induction false} LoserShare(g: Grid, n: nat, p: nat, r: real, k: nat)
    requires n >= 1 && p < n && r == 1.0 / n as real
    requires forall a: nat {:trigger g(a, p)} :: a < n ==> g(a, p) == if a == p then r else 0.0
    ensures Moved(Uniform(n), g, n, k)(p) == Power(r, k + 1)
    decreases k
  {
    if k == 0 {
      assert Power(r, 0) == 1.0;
    } else {
      LoserShare(g, n, p, r, k - 1);
      LoserStep(Moved(Uniform(n), g, n, k - 1), g, n, p, r);
    }
  }

  /** The score of a program that always wins is 1000 but for the part that has not yet moved to it. */
  lemma AlwaysWins(data: seq<seq<Results>>, n: nat, tapecount: nat, p: nat, m: nat, r: real)
    requires Proper(data, n, tapecount) && tapecount > 0 && p < n && Always(data, n, tapecount, p, 1) && r == 1.0 / n as real
    ensures Round(Transitions(data, n, tapecount), n, m)(p) == 1.0 - Power(1.0 - r, 32 * m + 1)
  {
    var g := Transitions(data, n, tapecount);
    TransitionsStochastic(data, n, tapecount);
    WinnerColumn(data, n, tapecount, p, g);
    WinnerShare(g, n, p, r, 32 * m);
  }

  /** And that of a program that always loses tends to 0. */
  lemma AlwaysLoses(data: seq<seq<Results>>, n: nat, tapecount: nat, p: nat, m: nat, r: real)
    requires Proper(data, n, tapecount) && tapecount > 0 && p < n && Always(data, n, tapecount, p, -1) && r == 1.0 / n as real
    ensures Round(Transitions(data, n, tapecount), n, m)(p) == Power(r, 32 * m + 1)
  {
    var g := Transitions(data, n, tapecount);
    LoserColumn(data, n, tapecount, p, g, r);
    LoserShare(g, n, p, r, 32 * m);
  }

  lemma {:induction false} HalfPower(k: nat)
    requires k >= 2
    ensures Power(0.5, k) <= 0.25
    decreases k
  {
    if k == 2 {
      assert Power(0.5, 1) == 0.5 * Power(0.5, 0);
    } else {
      HalfPower(k - 1);
    }
  }

  lemma OtherLoses(data: seq<seq<Results>>, tapecount: nat, p: nat)
    requires Proper(data, 2, tapecount) && p < 2 && Always(data, 2, tapecount, p, 1)
    ensures Always(data, 2, tapecount, 1 - p, -1)
  {
    Antisymmetric(data, 2, tapecount, p, 1 - p);
    assert Every(Entry(data, 2, tapecount, p, 1 - p), 1);
  }

  /** On a hill of two, a program that wins everything is ahead from the first round on. */
  lemma WinnerAhead(data: seq<seq<Results>>, tapecount: nat, p: nat, m: nat)
    requires Proper(data, 2, tapecount) && tapecount > 0 && p < 2 && Always(data, 2, tapecount, p, 1) && m >= 1
    ensures var g := Transitions(data, 2, tapecount); Round(g, 2, m)(p) >= 0.75 && Round(g, 2, m)(1 - p) <= 0.25
  {
    OtherLoses(data, tapecount, p);
    AlwaysWins(data, 2, tapecount, p, m, 0.5);
    AlwaysLoses(data, 2, tapecount, 1 - p, m, 0.5);
    HalfPower(32 * m + 1);
  }
}
