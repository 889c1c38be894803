/** The traditional score of a program. */
module Trad {
  import opened Sums
  import opened HillData

  /** Positive duel points only. */
  function Pos(x: real): real
  {
    if x > 0.0 then x else 0.0
  }

  /** What beating program `i` is worth. `d` holds the duel points, divided by the number of
      configurations. */
  function Worth(d: Grid, n: nat, i: nat): real
    requires n >= 2
  {
    (RowSum(d, n)(i) + n as real) / (2 * (n - 1)) as real
  }

  function Gains(d: Grid, n: nat): Grid
    requires n >= 2
  {
    (p: nat, i: nat) => Worth(d, n, i) * Pos(d(p, i))
  }

  function TradScore(d: Grid, n: nat, p: nat): real
    requires n >= 2
  {
    200.0 * RowSum(Gains(d, n), n)(p) / (n - 1) as real
  }

  // The sum behind the score, without its constant factors.

  function Weighted(d: Grid, n: nat, p: nat): Row
  {
    (i: nat) => Pos(d(p, i)) * (RowSum(d, n)(i) + n as real)
  }

  lemma ScoreIsWeighted(d: Grid, n: nat, p: nat)
    requires n >= 2
    ensures var m := (n - 1) as real; TradScore(d, n, p) == 100.0 * Sum(Weighted(d, n, p), n) / (m * m)
  {
    var m := (n - 1) as real;
    var gains, weighted := RowOf(Gains(d, n), p), Weighted(d, n, p);
    assert (2 * (n - 1)) as real == 2.0 * m;
    forall i: nat {:trigger weighted(i)} | i < n
      ensures weighted(i) == 2.0 * m * gains(i)
    {
      GainTimes(Pos(d(p, i)), RowSum(d, n)(i) + n as real, m);
    }
    SumScale(gains, weighted, 2.0 * m, n);
    ScoreArithmetic(Sum(gains, n), Sum(weighted, n), m);
  }

  lemma GainTimes(x: real, w: real, m: real)
    requires m > 0.0
    ensures x * w == 2.0 * m * (w / (2.0 * m) * x)
  {
    var q := w / (2.0 * m);
    assert q * (2.0 * m) == w;
    assert 2.0 * m * (q * x) == (q * (2.0 * m)) * x;
  }

  lemma ScoreArithmetic(gains: real, weighted: real, m: real)
    requires m >= 1.0 && weighted == 2.0 * m * gains
    ensures 200.0 * gains / m == 100.0 * weighted / (m * m)
  {
    var q := 200.0 * gains / m;
    var mm := SquarePositive(m);
    assert q * m == 200.0 * gains;
    ByProduct(q, gains, weighted, m, mm);
  }

  lemma ByProduct(q: real, gains: real, weighted: real, m: real, mm: real)
    requires m > 0.0 && mm > 0.0 && weighted == 2.0 * m * gains && q * m == 200.0 * gains && mm == m * m
    ensures q == 100.0 * weighted / mm
  {
    SameFactor(q * m, 200.0 * gains, m);
    assert q * mm == (q * m) * m;
    Ratio(100.0 * weighted, mm, q);
  }

  lemma SameFactor(a: real, b: real, c: real)
    requires a == b
    ensures a * c == b * c
  {
  }

  lemma SquarePositive(m: real) returns (mm: real)
    requires m >= 1.0
    ensures mm == m * m && mm > 0.0
  {
    mm := m * m;
    assert (m - 1.0) * (m - 1.0) >= 0.0;
  }

  lemma Ratio(a: real, b: real, c: real)
    requires b != 0.0 && c * b == a
    ensures a / b == c
  {
  }

  // The score is at most 100: a grid whose opposite entries are at most zero together adds up to the
  // weighted sum minus (n - 1) * (n - 1).

  /** How much the pair (i, j) of opponents of `p` contributes beyond its fair share. */
  function Excess(d: Grid, p: nat): Grid
  {
    (i: nat, j: nat) =>
      var x := Pos(d(p, i));
      if i == p || j == p then 0.0
      else if i == j then 2.0 * x - x * x - 1.0
      else x * d(i, j) + x - 1.0
  }

  lemma ExcessPairs(d: Grid, n: nat, p: nat, i: nat, j: nat)
    requires Duelling(d, n, 1.0) && p < n && i < n && j < n
    ensures Excess(d, p)(i, j) + Excess(d, p)(j, i) <= 0.0
  {
    var x, y, e := Pos(d(p, i)), Pos(d(p, j)), d(i, j);
    assert d(p, i) == -d(i, p) && d(p, j) == -d(j, p) && d(i, j) == -d(j, i);
    if i == p || j == p {
    } else if i == j {
      assert 2.0 * x - x * x - 1.0 == -((1.0 - x) * (1.0 - x));
      Square(1.0 - x);
    } else {
      PairBound(x, y, e);
    }
  }

  lemma Square(x: real)
    ensures x * x >= 0.0
  {
  }

  lemma PairBound(x: real, y: real, e: real)
    requires 0.0 <= x <= 1.0 && 0.0 <= y <= 1.0 && -1.0 <= e <= 1.0
    ensures (x * e + x - 1.0) + (y * -e + y - 1.0) <= 0.0
  {
    assert x * e + y * -e == (x - y) * e;
    if x >= y { Product(x - y, 1.0 - e); } else { Product(y - x, 1.0 + e); }
  }

  lemma Product(a: real, b: real)
    requires a >= 0.0 && b >= 0.0
    ensures a * b >= 0.0
  {
  }

  /** A row that is `scaled` plus a constant `t`, but for two places. */
  lemma PatchedRow(row: Row, scaled: Row, t: real, c: real, n: nat, p: nat, i: nat)
    requires p < n && i < n && i != p && scaled(i) == 0.0
    requires forall j: nat {:trigger row(j)} :: row(j) == if j == p then 0.0 else if j == i then c else scaled(j) + t
    ensures Sum(row, n) == Sum(scaled, n) + t * n as real - (scaled(p) + t) + (c - t)
  {
    var base: Row := (j: nat) => t;
    var plain: Row := (j: nat) => scaled(j) + t;
    var bumped: Row := (j: nat) => if j == p then 0.0 else plain(j);
    SumConst(base, t, n);
    SumAdd(scaled, base, plain, n);
    SumBump(plain, bumped, p, n);
    SumBump(bumped, row, i, n);
  }

  function Times(d: Grid, i: nat, x: real): Row
  {
    (j: nat) => x * d(i, j)
  }

  lemma ExcessRowIs(d: Grid, p: nat, i: nat, x: real, scaled: Row, row: Row, c: real)
    requires i != p && x == Pos(d(p, i)) && scaled == Times(d, i, x) && row == RowOf(Excess(d, p), i)
    requires c == 2.0 * x - x * x - 1.0
    ensures forall j: nat {:trigger row(j)} :: row(j) == if j == p then 0.0 else if j == i then c else scaled(j) + (x - 1.0)
  {
  }

  lemma TimesSum(d: Grid, n: nat, i: nat, x: real)
    ensures Sum(Times(d, i, x), n) == x * RowSum(d, n)(i)
  {
    SumScale(RowOf(d, i), Times(d, i, x), x, n);
  }

  lemma RowTotal(row: Row, scaled: Row, x: real, r: real, c: real, n: nat, p: nat, i: nat)
    requires p < n && i < n && i != p && scaled(i) == 0.0 && scaled(p) == -(x * x) && Sum(scaled, n) == x * r
    requires c == 2.0 * x - x * x - 1.0
    requires forall j: nat {:trigger row(j)} :: row(j) == if j == p then 0.0 else if j == i then c else scaled(j) + (x - 1.0)
    ensures Sum(row, n) == x * (r + n as real) - (n - 1) as real
  {
    PatchedRow(row, scaled, x - 1.0, c, n, p, i);
    RowArithmetic(x, r, n, c, x - 1.0, scaled(p), Sum(scaled, n), Sum(row, n));
  }

  /** Each row of the excess is a term of the weighted sum, minus n - 1. */
  lemma ExcessRow(d: Grid, n: nat, p: nat, i: nat)
    requires Duelling(d, n, 1.0) && p < n && i < n && i != p
    ensures RowSum(Excess(d, p), n)(i) == Weighted(d, n, p)(i) - (n - 1) as real
  {
    var x := Pos(d(p, i));
    var c := 2.0 * x - x * x - 1.0;
    var scaled, row := Times(d, i, x), RowOf(Excess(d, p), i);
    ScaledPlaces(d, n, p, i, x, scaled);
    TimesSum(d, n, i, x);
    ExcessRowIs(d, p, i, x, scaled, row, c);
    RowTotal(row, scaled, x, RowSum(d, n)(i), c, n, p, i);
  }

  lemma ScaledPlaces(d: Grid, n: nat, p: nat, i: nat, x: real, scaled: Row)
    requires Duelling(d, n, 1.0) && p < n && i < n && x == Pos(d(p, i)) && scaled == Times(d, i, x)
    ensures scaled(i) == 0.0 && scaled(p) == -(x * x)
  {
    assert d(p, i) == -d(i, p) && d(i, i) == -d(i, i);
  }

  lemma RowArithmetic(x: real, r: real, n: nat, c: real, t: real, atP: real, scaled: real, row: real)
    requires n >= 1 && c == 2.0 * x - x * x - 1.0 && t == x - 1.0 && atP == -(x * x) && scaled == x * r
    requires row == scaled + t * n as real - (atP + t) + (c - t)
    ensures row == x * (r + n as real) - (n - 1) as real
  {
    var k := n as real;
    assert (n - 1) as real == k - 1.0;
    assert t * k == x * k - k;
    assert x * (r + k) == x * r + x * k;
  }

  /** Rows that are `weighted` minus `m`, but for row `p`, which adds up to nothing. */
  lemma RowsTotal(weighted: Row, excess: Row, m: real, n: nat, p: nat)
    requires p < n && weighted(p) == 0.0 && excess(p) == 0.0 && n as real == m + 1.0
    requires forall i: nat {:trigger excess(i)} :: i < n && i != p ==> excess(i) == weighted(i) - m
    ensures Sum(weighted, n) == Sum(excess, n) + m * m
  {
    var less, rows: Row := (i: nat) => -m, (i: nat) => weighted(i) + -m;
    SumConst(less, -m, n);
    SumAdd(weighted, less, rows, n);
    SumBump(rows, excess, p, n);
    DistributeReal(-m, m);
    NegatedProduct(m, m);
  }

  lemma NegatedProduct(a: real, b: real)
    ensures -a * b == -(a * b)
  {
  }

  /** The sum behind a score, as a sum over all pairs of opponents. */
  lemma WeightedIsExcess(d: Grid, n: nat, p: nat)
    requires Duelling(d, n, 1.0) && p < n && n >= 2
    ensures var m := (n - 1) as real; Sum(Weighted(d, n, p), n) == Total(Excess(d, p), n, n) + m * m
  {
    var weighted, excess := Weighted(d, n, p), RowSum(Excess(d, p), n);
    forall i: nat {:trigger excess(i)} | i < n && i != p
      ensures excess(i) == weighted(i) - (n - 1) as real
    {
      ExcessRow(d, n, p, i);
    }
    SumConst(RowOf(Excess(d, p), p), 0.0, n);
    assert d(p, p) == -d(p, p);
    RowsTotal(weighted, excess, (n - 1) as real, n, p);
  }

  /** On every hill of at least two programs each score is at least 0 and at most 100. */
  lemma TradRange(d: Grid, n: nat, p: nat)
    requires Duelling(d, n, 1.0) && p < n && n >= 2
    ensures 0.0 <= TradScore(d, n, p) <= 100.0
  {
    var m := (n - 1) as real;
    ScoreIsWeighted(d, n, p);
    WeightedIsExcess(d, n, p);
    forall i: nat, j: nat {:trigger Excess(d, p)(i, j)} | i < n && j < n
      ensures Excess(d, p)(i, j) + Excess(d, p)(j, i) <= 0.0
    {
      ExcessPairs(d, n, p, i, j);
    }
    PairsAtMostZero(Excess(d, p), n);
    WeightedPositive(d, n, p);
    Percent(Sum(Weighted(d, n, p), n), m * m);
  }

  lemma WeightedPositive(d: Grid, n: nat, p: nat)
    requires Duelling(d, n, 1.0) && p < n && n >= 2
    ensures Sum(Weighted(d, n, p), n) >= 0.0
  {
    var none: Row := (i: nat) => 0.0;
    var weighted := Weighted(d, n, p);
    forall i: nat {:trigger weighted(i)} | i < n
      ensures weighted(i) >= 0.0
    {
      PointsRange(d, n, 1.0, i);
      Product(Pos(d(p, i)), RowSum(d, n)(i) + n as real);
    }
    SumConst(none, 0.0, n);
    SumLe(none, weighted, n);
  }

  lemma Percent(s: real, q: real)
    requires 0.0 <= s <= q && q > 0.0
    ensures 0.0 <= 100.0 * s / q <= 100.0
  {
    var x := 100.0 * s / q;
    assert x * q == 100.0 * s;
    Factor(x, q);
    assert (100.0 - x) * q == 100.0 * q - 100.0 * s;
    Factor(100.0 - x, q);
  }

  /** A program that wins every configuration of every duel scores exactly 100. */
  lemma TradWinner(d: Grid, n: nat, p: nat)
    requires Duelling(d, n, 1.0) && p < n && n >= 2
    requires forall i: nat {:trigger d(p, i)} :: i < n && i != p ==> d(p, i) == 1.0
    ensures TradScore(d, n, p) == 100.0
  {
    var m := (n - 1) as real;
    var rows := RowSum(d, n);
    assert d(p, p) == -d(p, p);
    PointsBalance(d, n, 1.0);
    WinnerPoints(d, n, p);
    OpponentsSum(Weighted(d, n, p), rows, n, p);
    ScoreIsWeighted(d, n, p);
    Ratio(100.0 * (m * m), m * m, 100.0);
  }

  lemma OpponentsSum(weighted: Row, rows: Row, n: nat, p: nat)
    requires p < n && Sum(rows, n) == 0.0 && rows(p) == (n - 1) as real && weighted(p) == 0.0
    requires forall i: nat {:trigger weighted(i)} :: i < n && i != p ==> weighted(i) == rows(i) + n as real
    ensures Sum(weighted, n) == (n - 1) as real * (n - 1) as real
  {
    var x, m := n as real, (n - 1) as real;
    var size, all: Row := (i: nat) => x, (i: nat) => rows(i) + x;
    SumConst(size, x, n);
    SumAdd(rows, size, all, n);
    SumBump(all, weighted, p, n);
    assert x == m + 1.0;
    assert x * x == m * m + 2.0 * m + 1.0;
  }

  lemma WinnerPoints(d: Grid, n: nat, p: nat)
    requires Duelling(d, n, 1.0) && p < n && n >= 2
    requires forall i: nat {:trigger d(p, i)} :: i < n && i != p ==> d(p, i) == 1.0
    ensures RowSum(d, n)(p) == (n - 1) as real
  {
    assert d(p, p) == -d(p, p);
    SumHole(RowOf(d, p), p, 1.0, n);
  }

  // The scores of a hill.

  function Scaled(g: Grid, k: real): Grid
    requires k != 0.0
  {
    (a: nat, b: nat) => g(a, b) / k
  }

  lemma ScaledDuelling(g: Grid, n: nat, k: real)
    requires Duelling(g, n, k) && k > 0.0
    ensures Duelling(Scaled(g, k), n, 1.0)
  {
    var d := Scaled(g, k);
    forall a: nat, b: nat {:trigger d(a, b)} | a < n && b < n
      ensures d(a, b) == -d(b, a) && -1.0 <= d(a, b) <= 1.0
    {
      assert g(a, b) == -g(b, a);
      Quotient(g(a, b), k, 1.0);
      Ratio(g(a, b), k, -(g(b, a) / k));
    }
  }

  lemma ScaledRow(g: Grid, n: nat, k: real, i: nat)
    requires k != 0.0
    ensures RowSum(Scaled(g, k), n)(i) == RowSum(g, n)(i) / k
  {
    var row, scaled := RowOf(g, i), RowOf(Scaled(g, k), i);
    forall j: nat {:trigger row(j)} | j < n
      ensures row(j) == k * scaled(j)
    {
    }
    SumScale(scaled, row, k, n);
    Ratio(Sum(row, n), k, Sum(scaled, n));
  }

  /** What program `a` gains from its duel with `b`. */
  ghost predicate GainIs(matrix: ResultMatrix, worth: seq<real>, k: real, gains: Grid, a: nat, b: nat)
    reads matrix
  {
    matrix.Valid() && |worth| == matrix.size && k > 0.0 && a < matrix.size && b < matrix.size ==>
      && gains(a, b) == worth[b] * Pos(Tally(matrix.Get(a, b)) as real / k)
      && gains(a, a) == 0.0
  }

  /** Goes through all pairs; the winner gets what the loser is worth, weighted by the duel points. */
  method AddGains(matrix: ResultMatrix, worth: seq<real>, k: real, ghost gains: Grid) returns (base: seq<real>)
    requires matrix.Valid() && |worth| == matrix.size && k > 0.0
    requires forall a: nat, b: nat {:trigger GainIs(matrix, worth, k, gains, a, b)} :: GainIs(matrix, worth, k, gains, a, b)
    ensures |base| == matrix.size
    ensures forall i: nat {:trigger base[i]} :: i < matrix.size ==> base[i] == RowSum(gains, matrix.size)(i)
  {
    var n := matrix.size;
    base := seq(n, _ => 0.0);
    for idA := 0 to n - 1
      invariant Partly(base, gains, n, idA, idA)
    {
      assert GainIs(matrix, worth, k, gains, idA, idA);
      RowBegins(base, gains, n, idA);
      base := AddRow(base, matrix, worth, k, gains, idA);
      RowEnds(base, gains, n, idA);
    }
    assert GainIs(matrix, worth, k, gains, n - 1, n - 1);
    AllDone(base, gains, n);
  }

  /** The pairs with `idA` as the first program. */
  method AddRow(before: seq<real>, matrix: ResultMatrix, worth: seq<real>, k: real, ghost gains: Grid, idA: nat)
    returns (base: seq<real>)
    requires matrix.Valid() && |worth| == matrix.size && k > 0.0 && idA < matrix.size
    requires forall a: nat, b: nat {:trigger GainIs(matrix, worth, k, gains, a, b)} :: GainIs(matrix, worth, k, gains, a, b)
    requires Partly(before, gains, matrix.size, idA, idA + 1)
    ensures Partly(base, gains, matrix.size, idA, matrix.size)
  {
    var n := matrix.size;
    base := before;
    for idB := idA + 1 to n
      invariant Partly(base, gains, n, idA, idB)
    {
      PairAdded(base, gains, n, idA, idB);
      assert GainIs(matrix, worth, k, gains, idA, idB) && GainIs(matrix, worth, k, gains, idB, idA);
      OppositeGain(matrix, idA, idB);
      base := AddGain(base, idA, idB, worth, Tally(matrix.Get(idA, idB)) as real, k, gains(idA, idB), gains(idB, idA));
    }
  }

  /** The duel of one pair. */
  method AddGain(base: seq<real>, a: nat, b: nat, worth: seq<real>, dp: real, k: real, ghost x: real, ghost y: real)
    returns (base': seq<real>)
    requires a < b < |base| == |worth| && k > 0.0
    requires x == worth[b] * Pos(dp / k) && y == worth[a] * Pos(-dp / k)
    ensures base' == base[a := base[a] + x][b := base[b] + y]
  {
    base' := base;
    PosQuotient(dp, k);
    PosQuotient(-dp, k);
    if dp > 0.0 {
      base' := base'[a := base'[a] + worth[b] * (dp / k)];
    } else if dp < 0.0 {
      base' := base'[b := base'[b] + worth[a] * (-dp / k)];
    }
  }

  lemma OppositeGain(matrix: ResultMatrix, a: nat, b: nat)
    requires matrix.Valid() && a < matrix.size && b < matrix.size
    ensures Tally(matrix.Get(b, a)) == -Tally(matrix.Get(a, b))
  {
    Antisymmetric(matrix.data, matrix.size, matrix.tapecount, a, b);
    TallyNegated(matrix.Get(a, b));
  }

  lemma PosQuotient(x: real, k: real)
    requires k > 0.0
    ensures Pos(x / k) == if x > 0.0 then x / k else 0.0
  {
    assert (x / k) * k == x;
  }

  /** The duel points of a hill, divided by the number of configurations. */
  ghost function DuelsOf(h: Hill): Grid
    requires h.Valid() && h.tapecount > 0
    reads h, h.results
  {
    Scaled(Duels(h.results.data, |h.hill|, h.tapecount), (2 * h.tapecount) as real)
  }

  /** The hill's results are complete and its points up to date. */
  ghost predicate Current(h: Hill)
    reads h, h.results
  {
    && h.Valid() && h.tapecount > 0 && |h.hill| >= 2 && Proper(h.results.data, |h.hill|, h.tapecount)
    && PointsOf(h.points, Duels(h.results.data, |h.hill|, h.tapecount), |h.hill|, (2 * h.tapecount) as real)
  }

  lemma CurrentDuelling(h: Hill)
    requires Current(h)
    ensures Duelling(DuelsOf(h), |h.hill|, 1.0)
    ensures forall i: nat {:trigger h.points[i]} :: i < |h.hill| ==> h.points[i] == RowSum(DuelsOf(h), |h.hill|)(i)
  {
    var n, k := |h.hill|, (2 * h.tapecount) as real;
    var g := Duels(h.results.data, n, h.tapecount);
    DuelsDuelling(h.results.data, n, h.tapecount);
    ScaledDuelling(g, n, k);
    forall i: nat {:trigger h.points[i]} | i < n
      ensures h.points[i] == RowSum(DuelsOf(h), n)(i)
    {
      ScaledRow(g, n, k, i);
    }
  }

  /** What each program is worth to those who beat it. */
  method Worths(h: Hill) returns (worth: seq<real>)
    requires Current(h)
    ensures |worth| == |h.hill| && forall i: nat {:trigger worth[i]} :: i < |worth| ==> worth[i] == Worth(DuelsOf(h), |h.hill|, i)
  {
    CurrentDuelling(h);
    var n := |h.hill|;
    var points := h.points;
    worth := seq(n, i requires 0 <= i < n => (points[i] + n as real) / (2 * (n - 1)) as real);
  }

  lemma DuelAt(h: Hill, a: nat, b: nat)
    requires Current(h) && a < |h.hill| && b < |h.hill|
    ensures DuelsOf(h)(a, b) == Tally(h.results.Get(a, b)) as real / (2 * h.tapecount) as real
    ensures DuelsOf(h)(a, a) == 0.0
  {
    CurrentDuelling(h);
    assert DuelsOf(h)(a, a) == -DuelsOf(h)(a, a);
  }

  lemma AllOfThem(wins: int, k: nat)
    requires wins == k > 0
    ensures wins as real / k as real == 1.0
  {
    Ratio(wins as real, k as real, 1.0);
  }

  lemma WonDuel(h: Hill, p: nat, i: nat)
    requires Current(h) && p < |h.hill| && i < |h.hill| && i != p
    requires Always(h.results.data, |h.hill|, h.tapecount, p, 1)
    ensures DuelsOf(h)(p, i) == 1.0
  {
    var r := Entry(h.results.data, |h.hill|, h.tapecount, p, i);
    assert Every(r, 1) && |r| == 2 * h.tapecount;
    EveryCounted(r, 1);
    DuelAt(h, p, i);
    AllOfThem(Tally(r), 2 * h.tapecount);
  }

  lemma PointsAt(h: Hill, p: nat)
    requires Current(h) && p < |h.hill|
    ensures h.points[p] == RowSum(DuelsOf(h), |h.hill|)(p)
  {
    CurrentDuelling(h);
  }

  /** A program that wins everything has n - 1 points and the score 100. */
  lemma FullWinner(h: Hill, p: nat)
    requires Current(h) && p < |h.hill| && Always(h.results.data, |h.hill|, h.tapecount, p, 1)
    ensures h.points[p] == (|h.hill| - 1) as real && TradScore(DuelsOf(h), |h.hill|, p) == 100.0
  {
    PointsAt(h, p);
    WinnerOf(h, p, |h.hill|, DuelsOf(h));
  }

  lemma WinnerOf(h: Hill, p: nat, n: nat, d: Grid)
    requires Current(h) && p < |h.hill| == n && d == DuelsOf(h) && Always(h.results.data, n, h.tapecount, p, 1)
    ensures RowSum(d, n)(p) == (n - 1) as real && TradScore(d, n, p) == 100.0
  {
    CurrentDuelling(h);
    forall i: nat {:trigger d(p, i)} | i < n && i != p
      ensures d(p, i) == 1.0
    {
      WonDuel(h, p, i);
    }
    WinnerPoints(d, n, p);
    TradWinner(d, n, p);
  }

  lemma DuelCounts(h: Hill, a: nat, b: nat, r: Results)
    requires Current(h) && a < |h.hill| && b < |h.hill| && r == h.results.Get(a, b)
    ensures DuelsOf(h)(a, b) == (Wins(r) - Losses(r)) as real / (2 * h.tapecount) as real
  {
    assert r == Entry(h.results.data, |h.hill|, h.tapecount, a, b) && Outcomes(r);
    Tallied(r);
    DuelAt(h, a, b);
  }

  /** On a hill of two, the score in terms of wins and losses. */
  lemma TwoPrograms(h: Hill, p: nat, r: Results, d: real)
    requires Current(h) && |h.hill| == 2 && p < 2 && r == h.results.Get(p, 1 - p)
    requires d == (Wins(r) - Losses(r)) as real / (2 * h.tapecount) as real
    ensures h.points[p] == d
    ensures TradScore(DuelsOf(h), 2, p) == ScoreFor(d)
  {
    DuelCounts(h, p, 1 - p, r);
    PointsAt(h, p);
    assert Duelling(DuelsOf(h), 2, 1.0) by { CurrentDuelling(h); }
    ScoreOfTwo(DuelsOf(h), p, 1 - p, d);
  }

  lemma RowsOfTwo(d: Grid, p: nat, q: nat, x: real)
    requires Duelling(d, 2, 1.0) && p < 2 && q == 1 - p && x == d(p, q)
    ensures RowSum(d, 2)(p) == x && RowSum(d, 2)(q) == -x && d(p, p) == 0.0
  {
    assert d(p, q) == -d(q, p) && d(p, p) == -d(p, p) && d(q, q) == -d(q, q);
    TwoSums(RowOf(d, p), p, q);
    TwoSums(RowOf(d, q), p, q);
  }

  lemma GainsOfTwo(d: Grid, p: nat, q: nat, w: real)
    requires p < 2 && q == 1 - p && d(p, p) == 0.0 && w == Worth(d, 2, q)
    ensures RowSum(Gains(d, 2), 2)(p) == w * Pos(d(p, q))
  {
    var gains := RowOf(Gains(d, 2), p);
    TwoSums(gains, p, q);
    assert gains(p) == Worth(d, 2, p) * 0.0 && gains(q) == w * Pos(d(p, q));
  }

  /** The score on a hill of two; `x` is wins minus losses, divided by the number of configurations. */
  function ScoreFor(x: real): real
  {
    if x > 0.0 then 100.0 * (2.0 - x) * x else 0.0
  }

  lemma ScoreOfTwo(d: Grid, p: nat, q: nat, x: real)
    requires Duelling(d, 2, 1.0) && p < 2 && q == 1 - p && x == d(p, q)
    ensures RowSum(d, 2)(p) == x
    ensures TradScore(d, 2, p) == ScoreFor(x)
  {
    RowsOfTwo(d, p, q, x);
    WorthOfTwo(d, q, -x);
    var g := GainOfTwo(d, p, q, Worth(d, 2, q), x);
    assert TradScore(d, 2, p) == 200.0 * g / 1.0;
  }

  lemma GainOfTwo(d: Grid, p: nat, q: nat, w: real, x: real) returns (g: real)
    requires p < 2 && q == 1 - p && d(p, p) == 0.0 && w == Worth(d, 2, q) == (-x + 2.0) / 2.0 && x == d(p, q)
    ensures RowSum(Gains(d, 2), 2)(p) == g && 200.0 * g / 1.0 == ScoreFor(x)
  {
    GainsOfTwo(d, p, q, w);
    g := w * Pos(x);
    ScoreArithmeticOfTwo(x, w, g);
  }

  lemma WorthOfTwo(d: Grid, q: nat, y: real)
    requires RowSum(d, 2)(q) == y
    ensures Worth(d, 2, q) == (y + 2.0) / 2.0
  {
  }

  lemma ScoreArithmeticOfTwo(x: real, w: real, g: real)
    requires w == (-x + 2.0) / 2.0 && g == w * Pos(x)
    ensures 200.0 * g / 1.0 == ScoreFor(x)
  {
  }

  lemma TwoSums(f: Row, p: nat, q: nat)
    requires p < 2 && q == 1 - p
    ensures Sum(f, 2) == f(p) + f(q)
  {
    assert Sum(f, 1) == f(0);
  }

  lemma GainAt(h: Hill, worth: seq<real>, a: nat, b: nat)
    requires Current(h) && a < |h.hill| && b < |h.hill| && |worth| == |h.hill|
    requires forall i: nat {:trigger worth[i]} :: i < |worth| ==> worth[i] == Worth(DuelsOf(h), |h.hill|, i)
    ensures Gains(DuelsOf(h), |h.hill|)(a, b) == worth[b] * Pos(Tally(h.results.Get(a, b)) as real / (2 * h.tapecount) as real)
    ensures Gains(DuelsOf(h), |h.hill|)(a, a) == 0.0
  {
    DuelAt(h, a, b);
    assert worth[b] == Worth(DuelsOf(h), |h.hill|, b);
  }

  lemma AllGains(h: Hill, worth: seq<real>, k: real, gains: Grid)
    requires Current(h) && |worth| == |h.hill| && k == (2 * h.tapecount) as real && gains == Gains(DuelsOf(h), |h.hill|)
    requires forall i: nat {:trigger worth[i]} :: i < |worth| ==> worth[i] == Worth(DuelsOf(h), |h.hill|, i)
    ensures forall a: nat, b: nat {:trigger GainIs(h.results, worth, k, gains, a, b)} :: GainIs(h.results, worth, k, gains, a, b)
  {
    forall a: nat, b: nat {:trigger GainIs(h.results, worth, k, gains, a, b)}
      ensures GainIs(h.results, worth, k, gains, a, b)
    {
      if a < |h.hill| && b < |h.hill| { GainAt(h, worth, a, b); }
    }
  }

  /** Program `i` wins everything. */
  ghost predicate WinsAll(h: Hill, i: nat)
    reads h, h.results
  {
    Current(h) && i < |h.hill| && Always(h.results.data, |h.hill|, h.tapecount, i, 1)
  }

  ghost predicate ScoredAt(h: Hill, scores: map<string, real>, i: nat)
    reads h, h.results
  {
    Current(h) && i < |h.hill| ==>
      h.hill[i] in scores && scores[h.hill[i]] == TradScore(DuelsOf(h), |h.hill|, i) && 0.0 <= scores[h.hill[i]] <= 100.0
  }

  lemma WinnerScored(h: Hill, scores: map<string, real>, i: nat)
    requires WinsAll(h, i) && ScoredAt(h, scores, i)
    ensures h.points[i] == (|h.hill| - 1) as real && scores[h.hill[i]] == 100.0
  {
    FullWinner(h, i);
  }

  /** The scores of all programs, each between 0 and 100; those that win everything get 100. */
  method Score(h: Hill) returns (scores: map<string, real>)
    requires Current(h)
    ensures scores.Keys == h.progs.Keys
    ensures forall i: nat {:trigger ScoredAt(h, scores, i)} :: ScoredAt(h, scores, i)
    ensures forall i: nat {:trigger WinsAll(h, i)} :: WinsAll(h, i) ==>
              h.points[i] == (|h.hill| - 1) as real && scores[h.hill[i]] == 100.0
  {
    var n, k := |h.hill|, (2 * h.tapecount) as real;
    ghost var d := DuelsOf(h);
    assert Duelling(d, n, 1.0) by { CurrentDuelling(h); }
    var worth := Worths(h);
    AllGains(h, worth, k, Gains(d, n));
    var base := AddGains(h.results, worth, k, Gains(d, n));
    var values := Percents(base, n, d);
    scores := ByName(h, values);
    forall i: nat {:trigger ScoredAt(h, scores, i)}
      ensures ScoredAt(h, scores, i)
    {
      if i < n { assert h.hill[i] in scores && scores[h.hill[i]] == values[i]; }
    }
    forall i: nat {:trigger WinsAll(h, i)} | WinsAll(h, i)
      ensures h.points[i] == (n - 1) as real && scores[h.hill[i]] == 100.0
    {
      assert ScoredAt(h, scores, i);
      WinnerScored(h, scores, i);
    }
  }

  method Percents(base: seq<real>, n: nat, ghost d: Grid) returns (values: seq<real>)
    requires n == |base| >= 2 && Duelling(d, n, 1.0)
    requires forall i: nat {:trigger base[i]} :: i < n ==> base[i] == RowSum(Gains(d, n), n)(i)
    ensures |values| == n
    ensures forall i: nat {:trigger values[i]} :: i < n ==> values[i] == TradScore(d, n, i) && 0.0 <= values[i] <= 100.0
  {
    values := seq(n, i requires 0 <= i < n => 200.0 * base[i] / (n - 1) as real);
    forall i: nat {:trigger values[i]} | i < n
      ensures values[i] == TradScore(d, n, i) && 0.0 <= values[i] <= 100.0
    {
      TradRange(d, n, i);
    }
  }
}
