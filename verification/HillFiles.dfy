/** Loading a hill from a directory of programs. */
module HillFiles {
  import opened HillData

  /** File `i` is named like the dummy of a later slot. */
  predicate DummyName(names: seq<string>, size: nat, i: nat, j: nat)
  {
    i < |names| && i < j < size && names[i] == Dummy(j)
  }

  ghost predicate AnyDummyName(names: seq<string>, size: nat)
  {
    exists i: nat, j: nat {:trigger DummyName(names, size, i, j)} :: DummyName(names, size, i, j)
  }

  predicate Differ(names: seq<string>, i: nat, j: nat)
  {
    i < j < |names| ==> names[i] != names[j]
  }

  /** The name in slot `k` when the first `n` files have been loaded. */
  function Slot(names: seq<string>, n: nat, k: nat): string
  {
    if k < n && k < |names| then names[k] else Dummy(k)
  }

  ghost predicate Slots(hill: seq<string>, names: seq<string>, n: nat, size: nat)
  {
    |hill| == size && forall k: nat {:trigger hill[k]} :: k < size ==> hill[k] == Slot(names, n, k)
  }

  /** The next file clashes exactly if it is named like the dummy of a later slot. */
  lemma NextClash(progs: map<string, nat>, hill: seq<string>, names: seq<string>, n: nat, size: nat)
    requires Named(progs, hill) && Slots(hill, names, n, size) && n < |names| && n < size
    requires forall i: nat, j: nat {:trigger Differ(names, i, j)} :: Differ(names, i, j)
    ensures hill[n] in progs && progs[hill[n]] == n
    ensures Clash(progs, hill[n], names[n]) <==> exists j: nat {:trigger DummyName(names, size, n, j)} :: DummyName(names, size, n, j)
  {
    if Clash(progs, hill[n], names[n]) {
      var k := progs[names[n]];
      assert hill[k] == names[n] == Slot(names, n, k);
      assert Differ(names, k, n);
      assert DummyName(names, size, n, k);
    }
    forall j: nat | DummyName(names, size, n, j)
      ensures Clash(progs, hill[n], names[n])
    {
      assert hill[j] == Slot(names, n, j) == names[n];
      DummiesDiffer(n, j);
    }
  }

  /** The result of the pair (x, y) when the first `n` files have been loaded: that of the file loaded
      later, if both are there; that of the only one; or a tie of two dummies. */
  ghost predicate LoadedAt(matrix: ResultMatrix, tested: seq<seq<Results>>, n: nat, x: nat, y: nat)
    reads matrix
  {
    matrix.Valid() && n <= |tested| && (forall i :: 0 <= i < |tested| ==> |tested[i]| == matrix.size) && x < y < matrix.size ==>
      if y < n then matrix.Get(y, x) == tested[y][x]
      else if x < n then matrix.Get(x, y) == tested[x][y]
      else matrix.Get(x, y) == Zeros(2 * matrix.tapecount)
  }

  ghost predicate AllLoaded(matrix: ResultMatrix, tested: seq<seq<Results>>, n: nat)
    reads matrix
  {
    forall x: nat, y: nat {:trigger LoadedAt(matrix, tested, n, x, y)} :: LoadedAt(matrix, tested, n, x, y)
  }

  lemma NextLoaded(before: ResultMatrix, after: ResultMatrix, tested: seq<seq<Results>>, n: nat)
    requires before.Valid() && after.Valid() && after.size == before.size && after.tapecount == before.tapecount && n < before.size
    requires n < |tested| && (forall i :: 0 <= i < |tested| ==> |tested[i]| == before.size) && AllLoaded(before, tested, n)
    requires forall x: nat, y: nat {:trigger after.Get(x, y)} :: x < after.size && y < after.size ==>
               after.Get(x, y) == before.Replaced(n, tested[n], x, y)
    ensures AllLoaded(after, tested, n + 1)
  {
    forall x: nat, y: nat {:trigger LoadedAt(after, tested, n + 1, x, y)}
      ensures LoadedAt(after, tested, n + 1, x, y)
    {
      assert LoadedAt(before, tested, n, x, y);
    }
  }

  /** All results that have been read are complete. */
  ghost predicate AllTested(tested: seq<seq<Results>>, tapecount: nat)
  {
    forall i :: 0 <= i < |tested| ==> ProperResults(tested[i], tapecount)
  }

  lemma TiesProper(matrix: ResultMatrix)
    requires matrix.Valid()
    requires forall x: nat, y: nat {:trigger matrix.Get(x, y)} :: x < matrix.size && y < matrix.size ==>
               matrix.Get(x, y) == Zeros(2 * matrix.tapecount)
    ensures Proper(matrix.data, matrix.size, matrix.tapecount)
  {
    forall x: nat, y: nat {:trigger Entry(matrix.data, matrix.size, matrix.tapecount, x, y)} | x < matrix.size && y < matrix.size
      ensures Entry(matrix.data, matrix.size, matrix.tapecount, x, y) == Zeros(2 * matrix.tapecount)
    {
      assert matrix.Get(x, y) == Entry(matrix.data, matrix.size, matrix.tapecount, x, y);
    }
  }

  /** The hill when `n` files have been loaded. */
  ghost predicate Holds(h: Hill, names: seq<string>, tested: seq<seq<Results>>, n: nat, size: nat, tapecount: nat)
    reads h, h.results
  {
    && h.Valid() && h.tapecount == tapecount > 0 && Slots(h.hill, names, n, size) && AllLoaded(h.results, tested, n)
    && (AllTested(tested, tapecount) ==> Proper(h.results.data, size, tapecount))
    && (n > 0 ==> PointsOf(h.points, Duels(h.results.data, size, tapecount), size, (2 * tapecount) as real))
  }

  /** Loads one file more; the caller knows that there is no clash. */
  method LoadNext(hill: Hill, names: seq<string>, tested: seq<seq<Results>>, id: nat, size: nat, tapecount: nat)
    returns (next: Hill?)
    requires Holds(hill, names, tested, id, size, tapecount) && id < |names| == |tested| && id < size
    requires forall i :: 0 <= i < |tested| ==> |tested[i]| == size
    requires hill.hill[id] in hill.progs && hill.progs[hill.hill[id]] == id
    ensures next == null <==> Clash(hill.progs, hill.hill[id], names[id])
    ensures next != null ==> Holds(next, names, tested, id + 1, size, tapecount)
  {
    next := hill.Replace(hill.hill[id], names[id], tested[id]);
    if next != null {
      NextLoaded(hill.results, next.results, tested, id);
      if AllTested(tested, tapecount) { assert ProperResults(tested[id], tapecount); }
    }
  }

  /** Puts the files, one after the other, in place of the dummies, each with its own results. It fails
      exactly if there are too many of them or one is named like the dummy of a later slot. */
  method Load(size: nat, tapecount: nat, names: seq<string>, tested: seq<seq<Results>>) returns (h: Hill?)
    requires size >= 1 && tapecount > 0 && |tested| == |names|
    requires forall i :: 0 <= i < |tested| ==> |tested[i]| == size
    requires forall i: nat, j: nat {:trigger Differ(names, i, j)} :: Differ(names, i, j)
    ensures h == null <==> |names| > size || AnyDummyName(names, size)
    ensures h != null ==> Holds(h, names, tested, |names|, size, tapecount)
  {
    var hill: Hill := new Hill(size, tapecount);
    if |names| > size { return null; }
    TiesProper(hill.results);
    for id := 0 to |names|
      invariant Holds(hill, names, tested, id, size, tapecount)
      invariant forall i: nat, j: nat {:trigger DummyName(names, size, i, j)} :: i < id ==> !DummyName(names, size, i, j)
    {
      NextClash(hill.progs, hill.hill, names, id, size);
      var next := LoadNext(hill, names, tested, id, size, tapecount);
      if next == null { return null; }
      hill := next;
    }
    h := hill;
  }

  /** A directory with only `dummy-1` cannot be loaded into a hill of two programs. */
  lemma DummyFile()
    ensures AnyDummyName(["dummy-1"], 2) && Dummy(10) == "dummy-10"
  {
    assert Digits(1) == "1" && Digits(10) == "10";
    assert DummyName(["dummy-1"], 2, 0, 1);
  }
}
