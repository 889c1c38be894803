/** Properly nested pairings of positions.

    A pairing is a sequence `ps` with `ps[i]` the partner of position `i`, or -1 when `i` has none.
    Everything here is stated position by position, so that a renumbering or a change of two
    entries is easy to follow; recursion over nested segments goes through `Closed`. The small
    predicates `Joined`, `Apart`, `Clear` and `Inside` also serve as triggers: a proof names the
    positions it needs. */
module Nest {

  /** The partner of `i` points back. */
  ghost predicate Joined(ps: seq<int>, n: nat, i: nat)
    requires i < n <= |ps|
  {
    ps[i] != -1 ==> 0 <= ps[i] < n && ps[i] != i && ps[ps[i]] == i
  }

  /** The pairs of `i` and `j` do not cross. */
  ghost predicate Apart(ps: seq<int>, i: nat, j: nat)
    requires i < |ps| && j < |ps|
  {
    i < j < ps[i] && ps[j] != -1 ==> i < ps[j] < ps[i]
  }

  /** The pair of `i` does not surround `o`. */
  ghost predicate Clear(ps: seq<int>, i: nat, o: nat)
    requires i < |ps|
  {
    i < o ==> ps[i] <= o
  }

  /** The partner of `i` lies in [lo, hi). */
  ghost predicate Inside(ps: seq<int>, lo: nat, hi: nat, i: nat)
    requires i < |ps|
  {
    ps[i] != -1 ==> lo <= ps[i] < hi
  }

  /** Among the first `n` positions, partners point back at each other and no two pairs cross. */
  ghost predicate Paired(ps: seq<int>, n: nat)
    requires n <= |ps|
  {
    && (forall i: nat {:trigger Joined(ps, n, i)} :: i < n ==> Joined(ps, n, i))
    && (forall i: nat, j: nat {:trigger Apart(ps, i, j)} :: i < n && j < n ==> Apart(ps, i, j))
  }

  /** No pair leaves the segment [lo, hi). */
  ghost predicate Closed(ps: seq<int>, lo: nat, hi: nat)
    requires hi <= |ps|
  {
    lo <= hi && forall i: nat {:trigger Inside(ps, lo, hi, i)} :: lo <= i < hi ==> Inside(ps, lo, hi, i)
  }

  ghost predicate Ordered(st: seq<nat>, i: nat, j: nat)
  {
    i < j < |st| ==> st[i] < st[j]
  }

  ghost predicate Increasing(st: seq<nat>)
  {
    forall i: nat, j: nat {:trigger Ordered(st, i, j)} :: Ordered(st, i, j)
  }

  /** A waiting opener has no partner yet. */
  ghost predicate Awaits(ps: seq<int>, st: seq<nat>, n: nat, o: nat)
    requires n <= |ps|
  {
    o in st ==> o < n && ps[o] == -1
  }

  /** The state of a left-to-right scan that has seen the first `n` positions: the pairs completed
      so far are properly nested, `st` holds the openers still waiting, and no completed pair
      surrounds a waiting opener. */
  ghost predicate Scan(ps: seq<int>, st: seq<nat>, n: nat)
    requires n <= |ps|
  {
    && Paired(ps, n)
    && Increasing(st)
    && (forall o: nat {:trigger Awaits(ps, st, n, o)} :: Awaits(ps, st, n, o))
    && (forall i: nat, o: nat {:trigger Clear(ps, i, o)} :: i < n && o in st ==> Clear(ps, i, o))
  }

  lemma LastIsLargest(st: seq<nat>, x: nat)
    requires Increasing(st + [x])
    ensures Increasing(st) && forall y :: y in st ==> y < x
  {
    var st' := st + [x];
    forall i: nat, j: nat
      ensures Ordered(st, i, j)
    {
      assert Ordered(st', i, j);
    }
    forall y | y in st
      ensures y < x
    {
      var k :| 0 <= k < |st| && st[k] == y;
      assert Ordered(st', k, |st|);
    }
  }

  lemma AppendLargest(st: seq<nat>, x: nat)
    requires Increasing(st) && forall y :: y in st ==> y < x
    ensures Increasing(st + [x])
  {
    forall i: nat, j: nat
      ensures Ordered(st + [x], i, j)
    {
      if i < j < |st| + 1 {
        assert Ordered(st, i, j) && st[i] in st;
      }
    }
  }

  /** The three shapes of the first step into a closed segment. */
  lemma ClosedTail(ps: seq<int>, lo: nat, hi: nat)
    requires hi <= |ps| && Paired(ps, |ps|) && Closed(ps, lo, hi) && lo < hi
    ensures ps[lo] == -1 ==> Closed(ps, lo + 1, hi)
    ensures ps[lo] != -1 ==> lo < ps[lo] < hi && Closed(ps, lo + 1, ps[lo]) && Closed(ps, ps[lo] + 1, hi)
  {
    assert Inside(ps, lo, hi, lo) && Joined(ps, |ps|, lo);
    if ps[lo] == -1 {
      forall i: nat {:trigger Inside(ps, lo + 1, hi, i)} | lo + 1 <= i < hi
        ensures Inside(ps, lo + 1, hi, i)
      {
        assert Inside(ps, lo, hi, i) && Joined(ps, |ps|, i);
      }
    } else {
      InsideClosed(ps, lo);
      var m := ps[lo];
      forall i: nat {:trigger Inside(ps, m + 1, hi, i)} | m + 1 <= i < hi
        ensures Inside(ps, m + 1, hi, i)
      {
        assert Inside(ps, lo, hi, i) && Joined(ps, |ps|, i) && Joined(ps, |ps|, m);
        assert ps[i] != -1 ==> Apart(ps, lo, ps[i]);
      }
      assert m + 1 <= hi;
      assert Closed(ps, m + 1, hi);
    }
  }

  /** A pair's inside is closed. */
  lemma InsideClosed(ps: seq<int>, lo: nat)
    requires lo < |ps| && Paired(ps, |ps|) && lo < ps[lo]
    ensures ps[lo] < |ps| && Closed(ps, lo + 1, ps[lo])
  {
    assert Joined(ps, |ps|, lo);
    forall i: nat {:trigger Inside(ps, lo + 1, ps[lo], i)} | lo + 1 <= i < ps[lo]
      ensures Inside(ps, lo + 1, ps[lo], i)
    {
      assert Apart(ps, lo, i);
    }
  }

  lemma ClosedJoin(ps: seq<int>, lo: nat, mid: nat, hi: nat)
    requires mid <= hi <= |ps| && Closed(ps, lo, mid) && Closed(ps, mid, hi)
    ensures Closed(ps, lo, hi)
  {
    forall i: nat {:trigger Inside(ps, lo, hi, i)} | lo <= i < hi
      ensures Inside(ps, lo, hi, i)
    {
      if i < mid { assert Inside(ps, lo, mid, i); } else { assert Inside(ps, mid, hi, i); }
    }
  }

  lemma ClosedRight(ps: seq<int>, lo: nat, mid: nat, hi: nat)
    requires hi <= |ps| && Paired(ps, |ps|) && lo <= mid <= hi
    requires Closed(ps, lo, hi) && Closed(ps, lo, mid)
    ensures Closed(ps, mid, hi)
  {
    forall i: nat | mid <= i < hi
      ensures Inside(ps, mid, hi, i)
    {
      assert Inside(ps, lo, hi, i) && Joined(ps, |ps|, i);
      assert ps[i] != -1 && ps[i] < mid ==> Inside(ps, lo, mid, ps[i]);
    }
  }

  lemma ClosedLeft(ps: seq<int>, lo: nat, mid: nat, hi: nat)
    requires hi <= |ps| && Paired(ps, |ps|) && lo <= mid <= hi
    requires Closed(ps, lo, hi) && Closed(ps, mid, hi)
    ensures Closed(ps, lo, mid)
  {
    forall i: nat | lo <= i < mid
      ensures Inside(ps, lo, mid, i)
    {
      assert Inside(ps, lo, hi, i) && Joined(ps, |ps|, i);
      assert ps[i] != -1 && mid <= ps[i] ==> Inside(ps, mid, hi, ps[i]);
    }
  }

  lemma ScanPlain(ps: seq<int>, ps': seq<int>, st: seq<nat>, n: nat)
    requires n < |ps| == |ps'| && Scan(ps, st, n)
    requires forall i :: 0 <= i < n ==> ps'[i] == ps[i]
    requires ps'[n] == -1
    ensures Scan(ps', st, n + 1)
  {
    forall i: nat {:trigger Joined(ps', n + 1, i)} | i < n + 1
      ensures Joined(ps', n + 1, i)
    {
      if i < n { assert Joined(ps, n, i); }
    }
    forall i: nat, j: nat | i < n + 1 && j < n + 1
      ensures Apart(ps', i, j)
    {
      if i < n { assert Joined(ps, n, i); }
      if i < n && j < n { assert Apart(ps, i, j); }
    }
    forall i: nat, o: nat | i < n + 1 && o in st
      ensures Clear(ps', i, o)
    {
      assert Awaits(ps, st, n, o);
      if i < n { assert Clear(ps, i, o); }
    }
    forall o: nat {:trigger Awaits(ps', st, n + 1, o)}
      ensures Awaits(ps', st, n + 1, o)
    {
      assert Awaits(ps, st, n, o);
    }
  }

  lemma ScanPush(ps: seq<int>, ps': seq<int>, st: seq<nat>, n: nat)
    requires n < |ps| == |ps'| && Scan(ps, st, n)
    requires forall i :: 0 <= i < n ==> ps'[i] == ps[i]
    requires ps'[n] == -1
    ensures Scan(ps', st + [n], n + 1)
  {
    ScanPlain(ps, ps', st, n);
    forall o: nat {:trigger Awaits(ps', st + [n], n + 1, o)}
      ensures Awaits(ps', st + [n], n + 1, o)
    {
      assert Awaits(ps, st, n, o) && Awaits(ps', st, n + 1, o);
    }
    forall y | y in st
      ensures y < n
    {
      assert Awaits(ps, st, n, y);
    }
    AppendLargest(st, n);
    forall i: nat, o: nat | i < n + 1 && o in st + [n]
      ensures Clear(ps', i, o)
    {
      if o == n {
        if i < n { assert Joined(ps, n, i); }
      } else {
        assert Clear(ps', i, o);
      }
    }
  }

  lemma ScanPop(ps: seq<int>, ps': seq<int>, st: seq<nat>, o: nat, n: nat)
    requires n < |ps| == |ps'| && Scan(ps, st + [o], n)
    requires o < n && forall i :: 0 <= i < n && i != o ==> ps'[i] == ps[i]
    requires ps'[n] == o && ps'[o] == n
    ensures Scan(ps', st, n + 1)
  {
    var st' := st + [o];
    assert o in st' && Awaits(ps, st', n, o);
    LastIsLargest(st, o);
    forall i: nat {:trigger Joined(ps', n + 1, i)} | i < n + 1
      ensures Joined(ps', n + 1, i)
    {
      if i < n {
        assert Joined(ps, n, i);
      }
    }
    forall i: nat, j: nat | i < n + 1 && j < n + 1
      ensures Apart(ps', i, j)
    {
      if i == o && j < n {
        assert Joined(ps, n, j);
        if ps[j] != -1 { assert Clear(ps, ps[j], o); }
      } else if i < n && j == o {
        assert Clear(ps, i, o);
      } else if i < n && j < n {
        assert Apart(ps, i, j);
      } else if i < n {
        assert Joined(ps, n, i);
      }
    }
    forall p: nat {:trigger Awaits(ps', st, n + 1, p)}
      ensures Awaits(ps', st, n + 1, p)
    {
      assert Awaits(ps, st', n, p);
    }
    forall i: nat, p: nat | i < n + 1 && p in st
      ensures Clear(ps', i, p)
    {
      assert Awaits(ps, st', n, p);
      if i < n { assert Clear(ps, i, p); }
    }
  }

  /** The intervals (a, b) and (c, d) do not cross. */
  predicate Uncrossed(a: int, b: int, c: int, d: int)
  {
    !(a < c < b < d) && !(c < a < d < b)
  }

  lemma PairsUncrossed(ps: seq<int>, n: nat, a: nat, c: nat)
    requires n <= |ps| && Paired(ps, n) && a < n && c < n && a < ps[a] && c < ps[c] && a != c
    ensures Uncrossed(a, ps[a], c, ps[c])
    ensures c != ps[a] && a != ps[c] && ps[c] != ps[a]
  {
    assert Joined(ps, n, a) && Joined(ps, n, c);
    assert Apart(ps, a, c) && Apart(ps, c, a);
  }
}
