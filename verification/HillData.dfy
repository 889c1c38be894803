/** The hill: programs, their duel results and their points. */
module HillData {
  import opened Sums

  /** The results of one pair, from the point of view of the first: one for each configuration. */
  type Results = seq<int>

  function Negated(r: Results): (n: Results)
    ensures |n| == |r|
  {
    seq(|r|, i requires 0 <= i < |r| => -r[i])
  }

  lemma NegatedTwice(r: Results)
    ensures Negated(Negated(r)) == r
  {
  }

  function Zeros(n: nat): (r: Results)
    ensures |r| == n && Negated(r) == r
  {
    seq(n, _ => 0)
  }

  /** Rows of decreasing length: the part of an n by n matrix above its diagonal. */
  predicate Triangular(data: seq<seq<Results>>, n: nat)
  {
    n >= 1 && |data| == n - 1 && forall a :: 0 <= a < n - 1 ==> |data[a]| == n - 1 - a
  }

  /** The entry of the full matrix: zeros on the diagonal, and below it the negated entries above. */
  function Entry(data: seq<seq<Results>>, n: nat, tapecount: nat, a: nat, b: nat): Results
    requires Triangular(data, n) && a < n && b < n
  {
    if a == b then Zeros(2 * tapecount)
    else if a < b then data[a][b - a - 1]
    else Negated(data[b][a - b - 1])
  }

  /** The full matrix is antisymmetric with a zero diagonal. */
  lemma Antisymmetric(data: seq<seq<Results>>, n: nat, tapecount: nat, a: nat, b: nat)
    requires Triangular(data, n) && a < n && b < n
    ensures Entry(data, n, tapecount, b, a) == Negated(Entry(data, n, tapecount, a, b))
    ensures a == b ==> Entry(data, n, tapecount, a, b) == Zeros(2 * tapecount)
  {
    if a > b { NegatedTwice(data[b][a - b - 1]); }
  }

  class ResultMatrix {
    const size: nat
    const tapecount: nat
    /** Entry (a, b) with a < b lies at `data[a][b - a - 1]`. */
    var data: seq<seq<Results>>

    constructor (size: nat, tapecount: nat)
      requires size >= 1
      ensures Valid() && this.size == size && this.tapecount == tapecount
    {
      this.size, this.tapecount := size, tapecount;
      data := seq(size - 1, i requires 0 <= i < size - 1 => seq(size - 1 - i, _ => []));
    }

    ghost predicate Valid()
      reads this
    {
      Triangular(data, size)
    }

    /** Reads an entry of the full matrix. */
    function Get(a: nat, b: nat): Results
      requires Valid() && a < size && b < size
      reads this
    {
      Entry(data, size, tapecount, a, b)
    }

    /** Changes an entry and the opposite one, and no other; the diagonal never changes. */
    method Set(a: nat, b: nat, results: Results)
      requires Valid() && a < size && b < size
      modifies this`data
      ensures Valid()
      ensures forall x: nat, y: nat {:trigger Get(x, y)} :: x < size && y < size ==>
                Get(x, y) == if a == b then old(Get(x, y))
                             else if x == a && y == b then results
                             else if x == b && y == a then Negated(results)
                             else old(Get(x, y))
    {
      if a == b { return; }
      if a < b {
        data := data[a := data[a][b - a - 1 := results]];
      } else {
        NegatedTwice(results);
        data := data[b := data[b][a - b - 1 := Negated(results)]];
      }
    }

    /** The entry of the full matrix after program `id` got new results. */
    function Replaced(id: nat, results: seq<Results>, x: nat, y: nat): Results
      requires Valid() && x < size && y < size && |results| == size
      reads this
    {
      ReplacedEntry(data, size, tapecount, id, results, x, y)
    }

    /** Gives program `id` new results, in place. */
    method Refill(id: nat, results: seq<Results>)
      requires Valid() && id < size && |results| == size
      modifies this`data
      ensures Valid()
      ensures forall x: nat, y: nat {:trigger Get(x, y)} :: x < size && y < size ==>
                Get(x, y) == old(Replaced(id, results, x, y))
    {
      for idB := 0 to size
        invariant Valid()
        invariant forall x: nat, y: nat {:trigger Get(x, y)} :: x < size && y < size ==>
                    Get(x, y) == if (x == id && y < idB) || (y == id && x < idB) then old(Replaced(id, results, x, y))
                                 else old(Get(x, y))
      {
        Set(id, idB, results[idB]);
      }
    }

    /** A new matrix in which exactly the row and the column of program `id` have changed. */
    method Replace(id: nat, results: seq<Results>) returns (matrix: ResultMatrix)
      requires Valid() && id < size && |results| == size
      ensures fresh(matrix) && matrix.Valid() && matrix.size == size && matrix.tapecount == tapecount
      ensures forall x: nat, y: nat {:trigger matrix.Get(x, y)} :: x < size && y < size ==>
                matrix.Get(x, y) == Replaced(id, results, x, y)
    {
      matrix := new ResultMatrix(size, tapecount);
      for a := 0 to size - 1
        invariant fresh(matrix) && matrix.Valid() && matrix.size == size && matrix.tapecount == tapecount
        invariant forall x: nat, y: nat {:trigger matrix.Get(x, y)} :: x < a && x < y < size ==> matrix.Get(x, y) == Get(x, y)
      {
        for b := a + 1 to size
          invariant fresh(matrix) && matrix.Valid() && matrix.size == size && matrix.tapecount == tapecount
          invariant forall x: nat, y: nat {:trigger matrix.Get(x, y)} ::
                      x < y < size && (x < a || (x == a && y < b)) ==> matrix.Get(x, y) == Get(x, y)
        {
          matrix.Set(a, b, data[a][b - a - 1]);
        }
      }
      forall x: nat, y: nat {:trigger matrix.Get(x, y)} | x < size && y < size
        ensures matrix.Get(x, y) == Get(x, y)
      {
        if x > y { assert matrix.Get(y, x) == Get(y, x); }
      }
      label Copied:
      matrix.Refill(id, results);
      forall x: nat, y: nat {:trigger matrix.Get(x, y)} | x < size && y < size
        ensures matrix.Get(x, y) == Replaced(id, results, x, y)
      {
        assert old@Copied(matrix.Get(x, y)) == Get(x, y);
      }
    }
  }

  /** Duel points: the sum of the results. */
  function Tally(r: Results): int
  {
    if r == [] then 0 else r[0] + Tally(r[1..])
  }

  /** Every result is a loss, a tie or a win. */
  predicate Outcomes(r: Results)
  {
    forall i :: 0 <= i < |r| ==> -1 <= r[i] <= 1
  }

  lemma {:induction false} TallyAppend(a: Results, b: Results)
    ensures Tally(a + b) == Tally(a) + Tally(b)
    decreases |a|
  {
    if a == [] {
      assert a + b == b;
    } else {
      TallyAppend(a[1..], b);
      assert (a + b)[1..] == a[1..] + b;
    }
  }

  /** How many configurations the first program loses. */
  function Losses(r: Results): (n: nat)
    ensures n <= |r|
  {
    if r == [] then 0 else (if r[0] < 0 then 1 else 0) + Losses(r[1..])
  }

  function Wins(r: Results): (n: nat)
    ensures n <= |r|
  {
    if r == [] then 0 else (if r[0] > 0 then 1 else 0) + Wins(r[1..])
  }

  /** One side's wins are the other side's losses. */
  lemma {:induction false} WinsAreLosses(r: Results)
    ensures Losses(Negated(r)) == Wins(r)
    decreases |r|
  {
    if r != [] {
      WinsAreLosses(r[1..]);
      assert Negated(r)[1..] == Negated(r[1..]);
    }
  }

  /** Duel points are wins minus losses, each counted once; what is neither is a tie. */
  lemma {:induction false} Tallied(r: Results)
    requires Outcomes(r)
    ensures Wins(r) == multiset(r)[1] && Losses(r) == multiset(r)[-1]
    ensures Tally(r) == Wins(r) - Losses(r)
    ensures Wins(r) + Losses(r) + multiset(r)[0] == |r|
    decreases |r|
  {
    if r != [] {
      Tallied(r[1..]);
      assert r == [r[0]] + r[1..];
    }
  }

  /** All configurations end alike. */
  predicate Every(r: Results, x: int)
  {
    forall k :: 0 <= k < |r| ==> r[k] == x
  }

  lemma {:induction false} EveryCounted(r: Results, x: int)
    requires Every(r, x) && -1 <= x <= 1
    ensures Tally(r) == x * |r|
    ensures Wins(r) == if x == 1 then |r| else 0
    ensures Losses(r) == if x == -1 then |r| else 0
    decreases |r|
  {
    if r != [] { EveryCounted(r[1..], x); }
  }

  /** Program `p` gets the result `x` in every configuration against everybody else. */
  ghost predicate Always(data: seq<seq<Results>>, n: nat, tapecount: nat, p: nat, x: int)
    requires Triangular(data, n) && p < n
  {
    forall j: nat {:trigger Entry(data, n, tapecount, p, j)} :: j < n && j != p ==> Every(Entry(data, n, tapecount, p, j), x)
  }

  lemma {:induction false} TallyNegated(r: Results)
    ensures Tally(Negated(r)) == -Tally(r)
    decreases |r|
  {
    if r != [] {
      TallyNegated(r[1..]);
      assert Negated(r)[1..] == Negated(r[1..]);
    }
  }

  lemma {:induction false} TallyRange(r: Results)
    requires Outcomes(r)
    ensures -|r| <= Tally(r) <= |r|
    decreases |r|
  {
    if r != [] { TallyRange(r[1..]); }
  }

  lemma {:induction false} TallyZeros(n: nat)
    ensures Tally(Zeros(n)) == 0
    decreases n
  {
    if n > 0 {
      TallyZeros(n - 1);
      assert Zeros(n)[1..] == Zeros(n - 1);
    }
  }

  predicate Named(progs: map<string, nat>, hill: seq<string>)
  {
    && (forall id :: 0 <= id < |hill| ==> hill[id] in progs && progs[hill[id]] == id)
    && (forall p :: p in progs ==> progs[p] < |hill| && hill[progs[p]] == p)
  }

  /** The names after program `replaced` has made room for `newprog`. */
  function Renamed(progs: map<string, nat>, replaced: string, newprog: string): map<string, nat>
    requires replaced in progs
  {
    (progs - {replaced})[newprog := progs[replaced]]
  }

  /** The new name is another program's. */
  predicate Clash(progs: map<string, nat>, replaced: string, newprog: string)
  {
    newprog != replaced && newprog in progs
  }

  /** Names and numbers remain inverse to each other exactly if the new name is not another program's. */
  lemma RenamedNamed(progs: map<string, nat>, hill: seq<string>, replaced: string, newprog: string)
    requires Named(progs, hill) && replaced in progs
    ensures Named(Renamed(progs, replaced, newprog), hill[progs[replaced] := newprog])
        <==> !Clash(progs, replaced, newprog)
  {
    var after, names := Renamed(progs, replaced, newprog), hill[progs[replaced] := newprog];
    if newprog != replaced && newprog in progs {
      assert names[progs[newprog]] == newprog && after[newprog] == progs[replaced];
    } else {
      forall id | 0 <= id < |names|
        ensures names[id] in after && after[names[id]] == id
      {
        assert hill[id] in progs && progs[hill[id]] == id;
      }
      forall p | p in after
        ensures after[p] < |names| && names[after[p]] == p
      {
        if p != newprog { assert p in progs && progs[p] != progs[replaced]; }
      }
    }
  }

  /** As many names as programs. */
  lemma {:induction false} NamedSize(progs: map<string, nat>, hill: seq<string>)
    requires Named(progs, hill)
    ensures |progs| == |hill|
    decreases |hill|
  {
    if hill == [] {
      assert progs.Keys == {};
    } else {
      var n, last := |hill| - 1, hill[|hill| - 1];
      assert progs[last] == n;
      var fewer := progs - {last};
      forall id | 0 <= id < n
        ensures hill[id] in fewer && fewer[hill[id]] == id
      {
        assert progs[hill[id]] == id;
      }
      forall p | p in fewer
        ensures fewer[p] < n && hill[fewer[p]] == p
      {
        assert hill[progs[p]] == p;
      }
      NamedSize(fewer, hill[..n]);
      assert progs == fewer[last := n];
    }
  }

  /** If the new name is another program's, a name gets lost. */
  lemma RenamedSize(progs: map<string, nat>, replaced: string, newprog: string)
    requires replaced in progs
    ensures |Renamed(progs, replaced, newprog)| == if Clash(progs, replaced, newprog) then |progs| - 1 else |progs|
  {
    var fewer := progs - {replaced};
    assert progs.Keys == fewer.Keys + {replaced};
    assert Renamed(progs, replaced, newprog).Keys == fewer.Keys + {newprog};
    assert |progs.Keys| == |fewer.Keys| + 1;
    if newprog in fewer { assert fewer.Keys + {newprog} == fewer.Keys; }
  }

  /** The duel points of all pairs. */
  function Duels(data: seq<seq<Results>>, n: nat, tapecount: nat): Grid
  {
    (a: nat, b: nat) => if Triangular(data, n) && a < n && b < n then Tally(Entry(data, n, tapecount, a, b)) as real else 0.0
  }

  /** All entries have one outcome for each configuration. */
  ghost predicate Proper(data: seq<seq<Results>>, n: nat, tapecount: nat)
  {
    Triangular(data, n) && forall a: nat, b: nat {:trigger Entry(data, n, tapecount, a, b)} :: a < n && b < n ==>
      Outcomes(Entry(data, n, tapecount, a, b)) && |Entry(data, n, tapecount, a, b)| == 2 * tapecount
  }

  ghost predicate ProperResults(results: seq<Results>, tapecount: nat)
  {
    forall i :: 0 <= i < |results| ==> Outcomes(results[i]) && |results[i]| == 2 * tapecount
  }

  function ReplacedEntry(data: seq<seq<Results>>, n: nat, tapecount: nat, id: nat, results: seq<Results>, x: nat, y: nat): Results
    requires Triangular(data, n) && x < n && y < n && |results| == n
  {
    if x == y then Zeros(2 * tapecount)
    else if x == id then results[y]
    else if y == id then Negated(results[x])
    else Entry(data, n, tapecount, x, y)
  }

  lemma ReplacedProper(data: seq<seq<Results>>, after: seq<seq<Results>>, n: nat, tapecount: nat, id: nat, results: seq<Results>)
    requires Proper(data, n, tapecount) && ProperResults(results, tapecount) && |results| == n && Triangular(after, n)
    requires forall x: nat, y: nat {:trigger Entry(after, n, tapecount, x, y)} :: x < n && y < n ==>
               Entry(after, n, tapecount, x, y) == ReplacedEntry(data, n, tapecount, id, results, x, y)
    ensures Proper(after, n, tapecount)
  {
    forall x: nat, y: nat {:trigger Entry(after, n, tapecount, x, y)} | x < n && y < n
      ensures Outcomes(Entry(after, n, tapecount, x, y)) && |Entry(after, n, tapecount, x, y)| == 2 * tapecount
    {
      assert Outcomes(Entry(data, n, tapecount, x, y));
    }
  }

  /** A grid of duel points with at most `k` for each pair. */
  ghost predicate Duelling(g: Grid, n: nat, k: real)
  {
    forall a: nat, b: nat {:trigger g(a, b)} :: a < n && b < n ==>
      g(a, b) == -g(b, a) && -k <= g(a, b) <= k
  }

  lemma DuelsDuelling(data: seq<seq<Results>>, n: nat, tapecount: nat)
    requires Proper(data, n, tapecount)
    ensures Duelling(Duels(data, n, tapecount), n, (2 * tapecount) as real)
  {
    var g := Duels(data, n, tapecount);
    forall a: nat, b: nat {:trigger g(a, b)} | a < n && b < n
      ensures g(a, b) == -g(b, a) && -(2 * tapecount) as real <= g(a, b) <= (2 * tapecount) as real
    {
      Antisymmetric(data, n, tapecount, a, b);
      TallyNegated(Entry(data, n, tapecount, a, b));
      TallyRange(Entry(data, n, tapecount, a, b));
    }
  }

  lemma {:induction false} SumHole(f: Row, i: nat, c: real, n: nat)
    requires forall j: nat {:trigger f(j)} :: j < n ==> f(j) == if j == i then 0.0 else c
    ensures Sum(f, n) == c * (if i < n then n - 1 else n) as real
    decreases n
  {
    if n > 0 {
      assert f(n - 1) == if n - 1 == i then 0.0 else c;
      SumHole(f, i, c, n - 1);
      Distribute(c, n - 1);
      if i < n - 1 { Distribute(c, n - 2); }
    }
  }

  /** Nobody gets more points than there are opponents and configurations, or loses more. */
  lemma PointsRange(g: Grid, n: nat, k: real, i: nat)
    requires Duelling(g, n, k) && i < n
    ensures -k * (n - 1) as real <= RowSum(g, n)(i) <= k * (n - 1) as real
  {
    forall j: nat {:trigger RowOf(g, i)(j)} | j < n
      ensures -k <= RowOf(g, i)(j) <= k && RowOf(g, i)(i) == 0.0
    {
      assert g(i, j) == -g(j, i) && g(i, i) == -g(i, i) && -k <= g(i, j) <= k;
    }
    RowRange(RowOf(g, i), n, k, i);
  }

  lemma RowRange(row: Row, n: nat, k: real, i: nat)
    requires i < n && row(i) == 0.0 && forall j: nat {:trigger row(j)} :: j < n ==> -k <= row(j) <= k
    ensures -k * (n - 1) as real <= Sum(row, n) <= k * (n - 1) as real
  {
    var most, least: Row := (j: nat) => if j == i then 0.0 else k, (j: nat) => if j == i then 0.0 else -k;
    SumLe(row, most, n);
    SumLe(least, row, n);
    SumHole(most, i, k, n);
    SumHole(least, i, -k, n);
  }

  /** What one side wins the other side loses: the points of all programs add up to zero. */
  lemma PointsBalance(g: Grid, n: nat, k: real)
    requires Duelling(g, n, k)
    ensures Sum(RowSum(g, n), n) == 0.0
  {
    AntisymmetricTotal(g, n);
  }

  /** The points shown: sums of duel points, divided by the number of configurations. */
  ghost predicate PointsOf(points: seq<real>, g: Grid, n: nat, k: real)
    requires k != 0.0
  {
    |points| == n && forall i: nat {:trigger points[i]} :: i < n ==> points[i] == RowSum(g, n)(i) / k
  }

  function Shown(points: seq<real>): Row
  {
    (i: nat) => if i < |points| then points[i] else 0.0
  }

  lemma DividedSum(points: seq<real>, rows: Row, n: nat, k: real)
    requires |points| == n && k > 0.0 && Sum(rows, n) == 0.0
    requires forall i: nat {:trigger points[i]} :: i < n ==> points[i] == rows(i) / k
    ensures Sum(Shown(points), n) == 0.0
  {
    var shown := Shown(points);
    forall i: nat {:trigger rows(i)} | i < n
      ensures rows(i) == k * shown(i)
    {
      assert points[i] == rows(i) / k;
    }
    SumScale(shown, rows, k, n);
  }

  /** The points of all programs add up to zero. */
  lemma PointsSumZero(points: seq<real>, g: Grid, n: nat, k: real)
    requires Duelling(g, n, k) && k > 0.0 && PointsOf(points, g, n, k)
    ensures Sum(Shown(points), n) == 0.0
  {
    PointsBalance(g, n, k);
    DividedSum(points, RowSum(g, n), n, k);
  }

  /** The points of a program lie between -(n - 1) and n - 1. */
  lemma PointsInRange(points: seq<real>, g: Grid, n: nat, k: real, i: nat)
    requires Duelling(g, n, k) && k > 0.0 && PointsOf(points, g, n, k) && i < n
    ensures -(n - 1) as real <= points[i] <= (n - 1) as real
  {
    PointsRange(g, n, k, i);
    Quotient(RowSum(g, n)(i), k, (n - 1) as real);
  }

  lemma Quotient(x: real, k: real, m: real)
    requires k > 0.0 && -k * m <= x <= k * m
    ensures -m <= x / k <= m
  {
    var q := x / k;
    assert q * k == x;
    assert (m - q) * k == k * m - x && (m + q) * k == k * m + x;
    Factor(m - q, k);
    Factor(m + q, k);
  }

  lemma Factor(a: real, k: real)
    requires k > 0.0 && a * k >= 0.0
    ensures a >= 0.0
  {
  }

  lemma AddDummy(ids: map<string, nat>, names: seq<string>)
    requires Named(ids, names) && forall k: nat {:trigger names[k]} :: k < |names| ==> names[k] == Dummy(k)
    ensures Named(ids[Dummy(|names|) := |names|], names + [Dummy(|names|)])
  {
    var n := |names|;
    forall k: nat {:trigger names[k]} | k < n
      ensures names[k] != Dummy(n)
    {
      DummiesDiffer(k, n);
    }
  }

  /** All pairs tie. */
  method FillZeros(matrix: ResultMatrix)
    requires matrix.Valid()
    modifies matrix`data
    ensures matrix.Valid()
    ensures forall x: nat, y: nat {:trigger matrix.Get(x, y)} :: x < matrix.size && y < matrix.size ==>
              matrix.Get(x, y) == Zeros(2 * matrix.tapecount)
  {
    var size, zeros := matrix.size, Zeros(2 * matrix.tapecount);
    for idA := 0 to size - 1
      invariant matrix.Valid()
      invariant forall x: nat, y: nat {:trigger matrix.Get(x, y)} :: x < y < size && x < idA ==> matrix.Get(x, y) == zeros
    {
      for idB := idA + 1 to size
        invariant matrix.Valid()
        invariant forall x: nat, y: nat {:trigger matrix.Get(x, y)} ::
                    x < y < size && (x < idA || (x == idA && y < idB)) ==> matrix.Get(x, y) == zeros
      {
        matrix.Set(idA, idB, zeros);
      }
    }
    forall x: nat, y: nat {:trigger matrix.Get(x, y)} | x < size && y < size
      ensures matrix.Get(x, y) == zeros
    {
      if x > y { assert matrix.Get(y, x) == zeros; }
    }
  }

  /** New results that are outcomes keep all entries outcomes. */
  lemma StaysProper(matrix: ResultMatrix, data: seq<seq<Results>>, id: nat, results: seq<Results>)
    requires matrix.Valid() && Triangular(data, matrix.size) && |results| == matrix.size
    requires forall x: nat, y: nat {:trigger matrix.Get(x, y)} :: x < matrix.size && y < matrix.size ==>
               matrix.Get(x, y) == ReplacedEntry(data, matrix.size, matrix.tapecount, id, results, x, y)
    ensures Proper(data, matrix.size, matrix.tapecount) && ProperResults(results, matrix.tapecount) ==>
              Proper(matrix.data, matrix.size, matrix.tapecount)
  {
    var n, tapecount := matrix.size, matrix.tapecount;
    forall x: nat, y: nat {:trigger Entry(matrix.data, n, tapecount, x, y)} | x < n && y < n
      ensures Entry(matrix.data, n, tapecount, x, y) == ReplacedEntry(data, n, tapecount, id, results, x, y)
    {
      assert matrix.Get(x, y) == Entry(matrix.data, n, tapecount, x, y);
    }
    if Proper(data, n, tapecount) && ProperResults(results, tapecount) {
      ReplacedProper(data, matrix.data, n, tapecount, id, results);
    }
  }

  class Hill {
    const tapecount: nat
    /** The number of each program, and the program with each number. */
    var progs: map<string, nat>
    var hill: seq<string>
    var results: ResultMatrix
    var points: seq<real>

    /** A hill of dummy programs that all tie. */
    constructor (size: nat, tapecount: nat)
      requires size >= 1
      ensures Valid() && this.tapecount == tapecount && |hill| == size && fresh(results)
      ensures forall k: nat {:trigger hill[k]} :: k < size ==> hill[k] == Dummy(k)
      ensures forall x: nat, y: nat {:trigger results.Get(x, y)} :: x < size && y < size ==>
                results.Get(x, y) == Zeros(2 * tapecount)
    {
      var names: seq<string>, ids: map<string, nat> := [], map[];
      for id := 0 to size
        invariant |names| == id && Named(ids, names)
        invariant forall k: nat {:trigger names[k]} :: k < id ==> names[k] == Dummy(k)
      {
        AddDummy(ids, names);
        ids := ids[Dummy(id) := id];
        names := names + [Dummy(id)];
      }
      var matrix := new ResultMatrix(size, tapecount);
      FillZeros(matrix);
      this.tapecount := tapecount;
      hill, progs, results, points := names, ids, matrix, [];
    }

    ghost predicate Valid()
      reads this, results
    {
      && Named(progs, hill) && |hill| >= 1 && results.Valid()
      && results.size == |hill| && results.tapecount == tapecount
    }

    /** The same hill, sharing everything. */
    constructor Dup(other: Hill)
      requires other.Valid()
      ensures Valid() && tapecount == other.tapecount
      ensures progs == other.progs && hill == other.hill && results == other.results && points == other.points
    {
      tapecount, progs, hill, results, points := other.tapecount, other.progs, other.hill, other.results, other.points;
    }

    /** Puts `newprog` in the place of `replaced`. It fails exactly if `newprog` is the name of another
        program: then there are fewer names than programs, and no points for the last program. */
    method ReplaceIn(replaced: string, newprog: string, newresults: seq<Results>) returns (ok: bool)
      requires Valid() && replaced in progs && |newresults| == |hill| && tapecount > 0
      modifies this
      ensures ok <==> !Clash(old(progs), replaced, newprog)
      ensures ok ==> Valid() && fresh(results)
      ensures progs == Renamed(old(progs), replaced, newprog) && hill == old(hill)[old(progs[replaced]) := newprog]
      ensures ok ==> forall x: nat, y: nat {:trigger results.Get(x, y)} :: x < |hill| && y < |hill| ==>
                results.Get(x, y) == old(results.Replaced(progs[replaced], newresults, x, y))
      ensures ok ==> PointsOf(points, Duels(results.data, |hill|, tapecount), |hill|, (2 * tapecount) as real)
      ensures ok && Proper(old(results.data), |hill|, tapecount) && ProperResults(newresults, tapecount) ==>
                Proper(results.data, |hill|, tapecount)
    {
      RenamedNamed(progs, hill, replaced, newprog);
      RenamedSize(progs, replaced, newprog);
      NamedSize(progs, hill);
      var newid := progs[replaced];
      progs := Renamed(progs, replaced, newprog);
      hill := hill[newid := newprog];
      ghost var data := results.data;
      results := results.Replace(newid, newresults);
      StaysProper(results, data, newid, newresults);
      ok, points := AddPoints(results, |progs|);
    }

    /** A new hill in which one program is replaced, if that is possible. This one does not change. */
    method Replace(replaced: string, newprog: string, newresults: seq<Results>) returns (h: Hill?)
      requires Valid() && replaced in progs && |newresults| == |hill| && tapecount > 0
      ensures h == null <==> Clash(progs, replaced, newprog)
      ensures h != null ==> fresh(h) && h.Valid() && h.tapecount == tapecount
      ensures h != null ==> h.progs == Renamed(progs, replaced, newprog) && h.hill == hill[progs[replaced] := newprog]
      ensures h != null ==> forall x: nat, y: nat {:trigger h.results.Get(x, y)} :: x < |hill| && y < |hill| ==>
                h.results.Get(x, y) == results.Replaced(progs[replaced], newresults, x, y)
      ensures h != null ==> PointsOf(h.points, Duels(h.results.data, |hill|, tapecount), |hill|, (2 * tapecount) as real)
      ensures h != null && Proper(results.data, |hill|, tapecount) && ProperResults(newresults, tapecount) ==>
                Proper(h.results.data, |hill|, tapecount)
    {
      var copy := new Hill.Dup(this);
      var ok := copy.ReplaceIn(replaced, newprog, newresults);
      h := if ok then copy else null;
    }
  }

  /** How many columns of row `i` have been added when the pairs before (a, b) are done. */
  function Done(n: nat, a: nat, b: nat, i: nat): nat
  {
    if i < a then n else if i == a then b else if i < b then a + 1 else a
  }

  /** The sums when the pairs before (a, b) are done. */
  ghost predicate Partly(sums: seq<real>, g: Grid, n: nat, a: nat, b: nat)
  {
    |sums| == n && forall i: nat {:trigger sums[i]} :: i < n ==> sums[i] == Sum(RowOf(g, i), Done(n, a, b, i))
  }

  /** One pair more. */
  lemma PairAdded(sums: seq<real>, g: Grid, n: nat, a: nat, b: nat)
    requires Partly(sums, g, n, a, b) && a < b < n
    ensures Partly(sums[a := sums[a] + g(a, b)][b := sums[b] + g(b, a)], g, n, a, b + 1)
  {
  }

  /** Nobody duels itself. */
  lemma RowBegins(sums: seq<real>, g: Grid, n: nat, a: nat)
    requires Partly(sums, g, n, a, a) && a < n && g(a, a) == 0.0
    ensures Partly(sums, g, n, a, a + 1)
  {
  }

  lemma RowEnds(sums: seq<real>, g: Grid, n: nat, a: nat)
    requires Partly(sums, g, n, a, n) && a < n
    ensures Partly(sums, g, n, a + 1, a + 1)
  {
  }

  lemma AllDone(sums: seq<real>, g: Grid, n: nat)
    requires n >= 1 && Partly(sums, g, n, n - 1, n - 1) && g(n - 1, n - 1) == 0.0
    ensures forall i: nat {:trigger sums[i]} :: i < n ==> sums[i] == RowSum(g, n)(i)
  {
  }

  /** The duel points of two programs. */
  ghost predicate DuelIs(matrix: ResultMatrix, g: Grid, a: nat, b: nat)
    reads matrix
  {
    matrix.Valid() && a < matrix.size && b < matrix.size ==>
      g(a, b) == Tally(matrix.Get(a, b)) as real && g(a, b) == -g(b, a)
  }

  /** Goes through all pairs, adding the duel points to one side and subtracting them from the other. It
      fails if there are only `n` sums for more programs. */
  method AddPairs(matrix: ResultMatrix, n: nat, ghost g: Grid) returns (ok: bool, sums: seq<real>)
    requires matrix.Valid() && n <= matrix.size && (n == matrix.size || matrix.size >= 2)
    requires forall a: nat, b: nat {:trigger DuelIs(matrix, g, a, b)} :: DuelIs(matrix, g, a, b)
    ensures ok <==> n == matrix.size
    ensures ok ==> |sums| == n && forall i: nat {:trigger sums[i]} :: i < n ==> sums[i] == RowSum(g, n)(i)
  {
    var size := matrix.size;
    ok, sums := true, seq(n, _ => 0.0);
    for idA := 0 to size - 1
      invariant ok && |sums| == n && (idA > 0 ==> n == size)
      invariant n == size ==> Partly(sums, g, n, idA, idA)
    {
      assert DuelIs(matrix, g, idA, idA);
      if n == size { RowBegins(sums, g, n, idA); }
      ok, sums := AddRow(sums, matrix, g, idA);
      if !ok { return; }
      RowEnds(sums, g, n, idA);
    }
    assert DuelIs(matrix, g, size - 1, size - 1);
    AllDone(sums, g, n);
  }

  /** The pairs with `idA` as the first program. */
  method AddRow(before: seq<real>, matrix: ResultMatrix, ghost g: Grid, idA: nat) returns (ok: bool, sums: seq<real>)
    requires matrix.Valid() && idA < matrix.size - 1 && |before| <= matrix.size
    requires |before| == matrix.size ==> Partly(before, g, matrix.size, idA, idA + 1)
    requires forall a: nat, b: nat {:trigger DuelIs(matrix, g, a, b)} :: DuelIs(matrix, g, a, b)
    ensures ok <==> |before| == matrix.size
    ensures ok ==> |sums| == |before| && Partly(sums, g, matrix.size, idA, matrix.size)
  {
    var n := matrix.size;
    sums := before;
    for idB := idA + 1 to n
      invariant |sums| == |before| && (|sums| < n ==> idB <= |sums| || idB == idA + 1)
      invariant |sums| == n ==> Partly(sums, g, n, idA, idB)
    {
      if idA >= |sums| || idB >= |sums| { return false, sums; }
      var s := Tally(matrix.Get(idA, idB)) as real;
      assert DuelIs(matrix, g, idA, idB);
      if |sums| == n { PairAdded(sums, g, n, idA, idB); }
      assert sums[idB] + g(idB, idA) == sums[idB] - s;
      sums := sums[idA := sums[idA] + s][idB := sums[idB] - s];
    }
    ok := true;
  }

  /** The points of all programs, if there are `n` of them. */
  method AddPoints(matrix: ResultMatrix, n: nat) returns (ok: bool, points: seq<real>)
    requires matrix.Valid() && matrix.tapecount > 0 && n <= matrix.size && (n == matrix.size || matrix.size >= 2)
    ensures ok <==> n == matrix.size
    ensures ok ==> PointsOf(points, Duels(matrix.data, n, matrix.tapecount), n, (2 * matrix.tapecount) as real)
  {
    var size, k := matrix.size, (2 * matrix.tapecount) as real;
    ghost var g := Duels(matrix.data, size, matrix.tapecount);
    DuelsOpposite(matrix.data, size, matrix.tapecount);
    forall a: nat, b: nat {:trigger DuelIs(matrix, g, a, b)}
      ensures DuelIs(matrix, g, a, b)
    {
      if a < size && b < size { assert g(a, b) == -g(b, a); }
    }
    var sums;
    ok, sums := AddPairs(matrix, n, Duels(matrix.data, size, matrix.tapecount));
    points := if ok then seq(n, i requires 0 <= i < |sums| => sums[i] / k) else [];
  }

  lemma DuelsOpposite(data: seq<seq<Results>>, n: nat, tapecount: nat)
    requires Triangular(data, n)
    ensures var g := Duels(data, n, tapecount);
            forall a: nat, b: nat {:trigger g(a, b)} :: a < n && b < n ==> g(a, b) == -g(b, a)
  {
    var g := Duels(data, n, tapecount);
    forall a: nat, b: nat {:trigger g(a, b)} | a < n && b < n
      ensures g(a, b) == -g(b, a)
    {
      Antisymmetric(data, n, tapecount, a, b);
      TallyNegated(Entry(data, n, tapecount, a, b));
    }
  }

  function Digits(n: nat): string
  {
    (if n < 10 then [] else Digits(n / 10)) + [('0' as int + n % 10) as char]
  }

  function Dummy(id: nat): string
  {
    "dummy-" + Digits(id)
  }

  /** Different numbers are written differently. */
  lemma {:induction false} DigitsDiffer(m: nat, n: nat)
    requires m != n
    ensures Digits(m) != Digits(n)
    decreases m
  {
    var a, b := Digits(m), Digits(n);
    var x, y := if m < 10 then [] else Digits(m / 10), if n < 10 then [] else Digits(n / 10);
    if m >= 10 && n >= 10 && m / 10 != n / 10 { DigitsDiffer(m / 10, n / 10); }
    assert a[..|a| - 1] == x && a[|a| - 1] == ('0' as int + m % 10) as char;
    assert b[..|b| - 1] == y && b[|b| - 1] == ('0' as int + n % 10) as char;
    assert m % 10 == n % 10 ==> m / 10 != n / 10;
  }

  lemma DummiesDiffer(m: nat, n: nat)
    requires m != n
    ensures Dummy(m) != Dummy(n)
  {
    DigitsDiffer(m, n);
    assert Dummy(m)[6..] == Digits(m) && Dummy(n)[6..] == Digits(n);
  }

  /** The scores by name. */
  method ByName(h: Hill, values: seq<real>) returns (scores: map<string, real>)
    requires h.Valid() && |values| == |h.hill|
    ensures scores.Keys == h.progs.Keys
    ensures forall i: nat {:trigger h.hill[i]} :: i < |h.hill| ==> h.hill[i] in scores && scores[h.hill[i]] == values[i]
  {
    scores := map[];
    for i := 0 to |h.hill|
      invariant scores.Keys == set j | 0 <= j < i :: h.hill[j]
      invariant forall j: nat {:trigger h.hill[j]} :: j < i ==> h.hill[j] in scores && scores[h.hill[j]] == values[j]
    {
      assert h.progs[h.hill[i]] == i;
      scores := scores[h.hill[i] := values[i]];
    }
    forall p | p in h.progs
      ensures p in scores
    {
      assert h.hill[h.progs[p]] == p;
    }
  }
}
