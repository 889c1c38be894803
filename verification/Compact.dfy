/** Cutting the repeats with count 0 out of the list and renumbering the links. */
module Compact {
  import opened Nest
  import opened Ops
  import opened Links
  import opened Clean
  import opened Nesting
  import opened Retype

  /** A half that is run zero times begins at `d`. */
  ghost predicate ZeroHead(u: seq<Op>, d: nat)
  {
    d < |u| && Opens(u[d].kind) && u[d].count == 0
  }

  /** Instruction `i` is part of a half that is cut out. */
  ghost predicate Deleted(u: seq<Op>, i: int)
  {
    exists d: nat {:trigger ZeroHead(u, d)} :: ZeroHead(u, d) && d <= i <= u[d].mate
  }

  /** Number of instructions before `i` that stay. */
  ghost function Kept(u: seq<Op>, i: nat): (k: nat)
    ensures k <= i
  {
    if i == 0 then 0 else Kept(u, i - 1) + if Deleted(u, i - 1) then 0 else 1
  }

  lemma {:induction false} KeptGrows(u: seq<Op>, i: nat, j: nat)
    requires i <= j
    ensures Kept(u, i) <= Kept(u, j)
    ensures i < j && !Deleted(u, i) ==> Kept(u, i) < Kept(u, j)
    ensures Kept(u, j) == j ==> Kept(u, i) == i
    decreases j
  {
    if i < j {
      KeptGrows(u, i, j - 1);
    }
  }

  /** Nothing stays in a part that is cut out. */
  lemma {:induction false} KeptSkips(u: seq<Op>, i: nat, j: nat)
    requires i <= j && forall k :: i <= k < j ==> Deleted(u, k)
    ensures Kept(u, j) == Kept(u, i)
    decreases j
  {
    if i < j {
      KeptSkips(u, i, j - 1);
    }
  }

  /** Both ends of a half are cut out together. */
  lemma DeletedHalf(u: seq<Op>, i: nat)
    requires Linked(u) && i < |u| && !Costed(u[i].kind) && Deleted(u, i)
    ensures Deleted(u, u[i].mate)
  {
    var d: nat :| ZeroHead(u, d) && d <= i <= u[d].mate;
    var hs := Halves(u);
    assert LinkedAt(u, d) && LinkedAt(u, i);
    assert Joined(hs, |u|, d) && Apart(hs, d, i);
  }

  lemma DeletedForward(u: seq<Op>, q: Quad)
    requires Linked(u) && 0 <= q.rep1 < |u| && u[q.rep1].kind == IRep1 && QuadOf(u, q.rep1) == q
    requires Deleted(u, q.rep1)
    ensures Deleted(u, q.rep2)
  {
    var p, r := q.rep1, q.rep2;
    var d: nat :| ZeroHead(u, d) && d <= p <= u[d].mate;
    if d == p {
      assert ZeroHead(u, q.inner2);
    } else {
      var bs := Blocks(u);
      assert LinkedAt(u, d) && LinkedAt(u, p);
      match u[d].kind
      case Rep1 =>
        assert Apart(bs, d, p);
      case IRep1 =>
        var D := QuadOf(u, d);
        assert Apart(bs, d, p) && Apart(bs, p, D.inner1);
        assert ZeroHead(u, D.inner2);
      case Inner2 =>
        var D := QuadOf(u, d);
        assert Apart(bs, D.rep1, p);
    }
  }

  lemma DeletedBackward(u: seq<Op>, q: Quad)
    requires Linked(u) && 0 <= q.rep1 < |u| && u[q.rep1].kind == IRep1 && QuadOf(u, q.rep1) == q
    requires Deleted(u, q.rep2)
    ensures Deleted(u, q.rep1)
  {
    var p, r := q.rep1, q.rep2;
    var d: nat :| ZeroHead(u, d) && d <= r <= u[d].mate;
    if d == q.inner2 {
      assert ZeroHead(u, p);
    } else {
      var bs := Blocks(u);
      assert LinkedAt(u, d) && LinkedAt(u, r);
      match u[d].kind
      case Rep1 =>
        assert Apart(bs, d, r);
      case IRep1 =>
        var D := QuadOf(u, d);
        assert Apart(bs, d, r);
      case Inner2 =>
        var D := QuadOf(u, d);
        assert Apart(bs, D.rep1, r) && Apart(bs, D.inner1, p);
        assert ZeroHead(u, D.rep1);
    }
  }

  /** The four tokens of a paren are cut out together. */
  lemma DeletedTogether(u: seq<Op>, i: nat)
    requires Linked(u) && i < |u| && Braced(u[i].kind)
    ensures var q := QuadOf(u, i);
            && Deleted(u, q.rep1) == Deleted(u, i) && Deleted(u, q.inner1) == Deleted(u, i)
            && Deleted(u, q.inner2) == Deleted(u, i) && Deleted(u, q.rep2) == Deleted(u, i)
  {
    var q := QuadOf(u, i);
    SameQuad(u, i, q.rep1);
    if Deleted(u, q.rep1) { DeletedForward(u, q); DeletedHalf(u, q.rep1); }
    if Deleted(u, q.inner1) { DeletedHalf(u, q.inner1); }
    if Deleted(u, q.rep2) { DeletedBackward(u, q); DeletedHalf(u, q.rep2); }
    if Deleted(u, q.inner2) { DeletedHalf(u, q.inner2); }
  }

  /** Partners are cut out together. */
  lemma DeletedPartners(u: seq<Op>, i: nat)
    requires Linked(u) && i < |u| && !Costed(u[i].kind)
    ensures Deleted(u, u[i].mate) == Deleted(u, i)
    ensures Braced(u[i].kind) ==> Deleted(u, u[i].inner) == Deleted(u, i)
  {
    assert LinkedAt(u, i) && LinkedAt(u, u[i].mate);
    if Deleted(u, i) { DeletedHalf(u, i); }
    if Deleted(u, u[i].mate) { DeletedHalf(u, u[i].mate); }
    if Braced(u[i].kind) { DeletedTogether(u, i); }
  }

  /** Where a link to `x` points once the instructions before `at` have been moved. */
  ghost function Renumber(u: seq<Op>, at: nat, x: int): int
  {
    if 0 <= x < at && !Deleted(u, x) then Kept(u, x) else x
  }

  ghost function Moved(u: seq<Op>, at: nat, i: nat): Op
    requires i < |u|
  {
    u[i].(mate := Renumber(u, at, u[i].mate), inner := Renumber(u, at, u[i].inner))
  }

  /** Instruction `i` is where it belongs when the instructions before `at` have been moved. */
  ghost predicate Placed(u: seq<Op>, a: seq<Op>, at: nat, i: nat)
    requires i < |u| == |a|
  {
    && (i < at && !Deleted(u, i) ==> a[Kept(u, i)] == Moved(u, at, i))
    && (i >= at ==> a[i] == Moved(u, at, i))
  }

  ghost predicate AllPlaced(u: seq<Op>, a: seq<Op>, at: nat)
  {
    |a| == |u| && forall i: nat {:trigger Placed(u, a, at, i)} :: i < |u| ==> Placed(u, a, at, i)
  }

  /** No part that is cut out reaches across `at`. */
  ghost predicate Boundary(u: seq<Op>, at: nat)
  {
    forall d: nat {:trigger ZeroHead(u, d)} :: ZeroHead(u, d) && d < at ==> u[d].mate < at
  }

  /** The instruction at `at` is moved to `to`, and its partners are told. */
  function Copied(a: seq<Op>, at: nat, to: nat): seq<Op>
    requires to <= at < |a|
    requires a[at].mate == -1 || 0 <= a[at].mate < |a|
    requires a[at].inner == -1 || 0 <= a[at].inner < |a|
  {
    if to == at then a
    else
      var op := a[at];
      var a1 := if op.mate != -1 then a[op.mate := a[op.mate].(mate := to)] else a;
      var a2 := if op.inner != -1 then a1[op.inner := a1[op.inner].(inner := to)] else a1;
      a2[to := a2[at]]
  }

  lemma NothingPlaced(u: seq<Op>, a: seq<Op>)
    requires a == u
    ensures AllPlaced(u, a, 0) && Boundary(u, 0) && Kept(u, 0) == 0
  {
    forall i: nat {:trigger Placed(u, a, 0, i)} | i < |u|
      ensures Placed(u, a, 0, i)
    {
    }
  }

  lemma StaysAtBoundary(u: seq<Op>, at: nat)
    requires Linked(u) && at < |u| && Boundary(u, at)
    ensures Deleted(u, at) <==> ZeroHead(u, at)
  {
    assert LinkedAt(u, at);
  }

  /** The links of a surviving instruction and of its partners. */
  lemma PartnerFacts(u: seq<Op>, i: nat)
    requires Linked(u) && Unlooped(u) && i < |u|
    ensures u[i].mate == -1 || (0 <= u[i].mate < |u| && u[i].mate != i && u[u[i].mate].mate == i && Deleted(u, u[i].mate) == Deleted(u, i))
    ensures u[i].inner == -1 || (0 <= u[i].inner < |u| && u[i].inner != i && u[u[i].inner].inner == i && Deleted(u, u[i].inner) == Deleted(u, i))
  {
    assert LinkedAt(u, i);
    if !Costed(u[i].kind) {
      assert LinkedAt(u, u[i].mate);
      DeletedPartners(u, i);
      if Braced(u[i].kind) {
        assert LinkedAt(u, u[i].inner);
      }
    }
  }

  /** A link to `x` changes at position `at` only if `x` is `at`. */
  lemma RenumberStep(u: seq<Op>, at: nat, x: int)
    requires !Deleted(u, at)
    ensures Renumber(u, at + 1, x) == if x == at then Kept(u, at) else Renumber(u, at, x)
  {
  }

  /** Moved instructions have different places. */
  lemma KeptInjective(u: seq<Op>, i: nat, j: nat)
    requires !Deleted(u, i) && !Deleted(u, j) && Kept(u, i) == Kept(u, j)
    ensures i == j
  {
    if i < j { KeptGrows(u, i, j); }
    if j < i { KeptGrows(u, j, i); }
  }

  lemma KeptOrder(u: seq<Op>, i: nat, j: nat)
    requires Kept(u, i) < Kept(u, j)
    ensures i < j
  {
    if j <= i { KeptGrows(u, j, i); }
  }

  lemma RenumberInjective(u: seq<Op>, at: nat, x: nat, y: nat)
    requires !Deleted(u, x) && !Deleted(u, y) && Renumber(u, at, x) == Renumber(u, at, y)
    ensures x == y
  {
    if x < at && y < at {
      KeptInjective(u, x, y);
    }
  }

  lemma MovedStep(u: seq<Op>, at: nat, j: nat)
    requires Linked(u) && Unlooped(u) && at < |u| && j < |u| && !Deleted(u, at)
    ensures Moved(u, at + 1, j).kind == u[j].kind && Moved(u, at + 1, j).count == u[j].count
    ensures Moved(u, at + 1, j).mate == if u[j].mate != -1 && j == u[at].mate then Kept(u, at) else Moved(u, at, j).mate
    ensures Moved(u, at + 1, j).inner == if u[j].inner != -1 && j == u[at].inner then Kept(u, at) else Moved(u, at, j).inner
  {
    RenumberStep(u, at, u[j].mate);
    RenumberStep(u, at, u[j].inner);
    PartnerFacts(u, at);
    PartnerFacts(u, j);
  }

  lemma CopyReady(u: seq<Op>, a: seq<Op>, at: nat)
    requires Linked(u) && Unlooped(u) && at < |u| && !Deleted(u, at) && AllPlaced(u, a, at)
    ensures a[at] == Moved(u, at, at)
    ensures a[at].mate == -1 || 0 <= a[at].mate < |a|
    ensures a[at].inner == -1 || 0 <= a[at].inner < |a|
  {
    assert Placed(u, a, at, at);
    PartnerFacts(u, at);
  }

  /** What copying leaves at the place of another surviving instruction. */
  lemma CopyOther(u: seq<Op>, a: seq<Op>, at: nat, j: nat)
    requires Linked(u) && Unlooped(u) && at < |u| && !Deleted(u, at) && AllPlaced(u, a, at)
    requires j < |u| && j != at && !Deleted(u, j) && Kept(u, at) < at
    requires a[at].mate == -1 || 0 <= a[at].mate < |a|
    requires a[at].inner == -1 || 0 <= a[at].inner < |a|
    ensures 0 <= Renumber(u, at, j) < |a|
    ensures Copied(a, at, Kept(u, at))[Renumber(u, at, j)] == Moved(u, at + 1, j)
  {
    CopyReady(u, a, at);
    assert Placed(u, a, at, j);
    MovedStep(u, at, j);
    PartnerFacts(u, at);
    PartnerFacts(u, j);
    if j < at { KeptGrows(u, j, at); }
    if u[at].mate != -1 && Renumber(u, at, j) == Renumber(u, at, u[at].mate) { RenumberInjective(u, at, j, u[at].mate); }
    if u[at].inner != -1 && Renumber(u, at, j) == Renumber(u, at, u[at].inner) { RenumberInjective(u, at, j, u[at].inner); }
  }

  lemma CopySelf(u: seq<Op>, a: seq<Op>, at: nat)
    requires Linked(u) && Unlooped(u) && at < |u| && !Deleted(u, at) && AllPlaced(u, a, at) && Kept(u, at) < at
    requires a[at].mate == -1 || 0 <= a[at].mate < |a|
    requires a[at].inner == -1 || 0 <= a[at].inner < |a|
    ensures Copied(a, at, Kept(u, at))[Kept(u, at)] == Moved(u, at + 1, at)
  {
    CopyReady(u, a, at);
    MovedStep(u, at, at);
    PartnerFacts(u, at);
  }

  lemma CopyDeleted(u: seq<Op>, a: seq<Op>, at: nat, j: nat)
    requires Linked(u) && Unlooped(u) && at < j < |u| && !Deleted(u, at) && AllPlaced(u, a, at) && Kept(u, at) < at
    requires Deleted(u, j)
    requires a[at].mate == -1 || 0 <= a[at].mate < |a|
    requires a[at].inner == -1 || 0 <= a[at].inner < |a|
    ensures Copied(a, at, Kept(u, at))[j] == Moved(u, at + 1, j)
  {
    CopyReady(u, a, at);
    assert Placed(u, a, at, j);
    MovedStep(u, at, j);
    PartnerFacts(u, at);
    PartnerFacts(u, j);
  }

  /** Before anything has been cut out nothing moves. */
  lemma NothingMoved(u: seq<Op>, a: seq<Op>, at: nat, j: nat)
    requires at < |u| == |a| && !Deleted(u, at) && Kept(u, at) == at && j < |u| && Placed(u, a, at, j)
    ensures Placed(u, a, at + 1, j)
  {
    RenumberStep(u, at, u[j].mate);
    RenumberStep(u, at, u[j].inner);
  }

  lemma CopyStep(u: seq<Op>, a: seq<Op>, at: nat, to: nat)
    requires Linked(u) && Unlooped(u) && at < |u| && !Deleted(u, at) && AllPlaced(u, a, at) && to == Kept(u, at)
    ensures a[at].mate == -1 || 0 <= a[at].mate < |a|
    ensures a[at].inner == -1 || 0 <= a[at].inner < |a|
    ensures AllPlaced(u, Copied(a, at, to), at + 1)
  {
    CopyReady(u, a, at);
    var a' := Copied(a, at, to);
    forall j: nat {:trigger Placed(u, a', at + 1, j)} | j < |u|
      ensures Placed(u, a', at + 1, j)
    {
      if to == at {
        assert Placed(u, a, at, j);
        NothingMoved(u, a, at, j);
      } else if j == at {
        CopySelf(u, a, at);
      } else if !Deleted(u, j) {
        CopyOther(u, a, at, j);
      } else if j > at {
        CopyDeleted(u, a, at, j);
      }
    }
  }

  /** Cutting out the half that begins at `at` moves nothing. */
  lemma SkipStep(u: seq<Op>, a: seq<Op>, at: nat, to: nat)
    requires Linked(u) && Unlooped(u) && at < |u| && ZeroHead(u, at) && Boundary(u, at) && AllPlaced(u, a, at)
    ensures a[at].mate == u[at].mate && at < u[at].mate < |u|
    ensures AllPlaced(u, a, u[at].mate + 1) && Boundary(u, u[at].mate + 1)
    ensures Kept(u, u[at].mate + 1) == Kept(u, at)
  {
    var m := u[at].mate;
    assert LinkedAt(u, at);
    assert Placed(u, a, at, at);
    assert forall k :: at <= k < m + 1 ==> Deleted(u, k);
    KeptSkips(u, at, m + 1);
    forall j: nat {:trigger Placed(u, a, m + 1, j)} | j < |u|
      ensures Placed(u, a, m + 1, j)
    {
      assert Placed(u, a, at, j);
    }
    forall d: nat {:trigger ZeroHead(u, d)} | ZeroHead(u, d) && d < m + 1
      ensures u[d].mate < m + 1
    {
      assert LinkedAt(u, d);
      assert Apart(Halves(u), at, d);
    }
  }

  lemma BoundaryStep(u: seq<Op>, at: nat)
    requires at < |u| && Boundary(u, at) && !ZeroHead(u, at)
    ensures Boundary(u, at + 1)
  {
    forall d: nat {:trigger ZeroHead(u, d)} | ZeroHead(u, d) && d < at + 1
      ensures u[d].mate < at + 1
    {
    }
  }

  /** Instruction `j` of `u`, if it stays, is in `t` at its new place with renumbered links. */
  ghost predicate Survives(u: seq<Op>, t: seq<Op>, j: nat)
    requires j < |u|
  {
    !Deleted(u, j) ==> Kept(u, j) < |t| && t[Kept(u, j)] == Moved(u, |u|, j)
  }

  /** `t` consists of the instructions of `u` that stay, in their order. */
  ghost predicate Squeezed(u: seq<Op>, t: seq<Op>)
  {
    |t| == Kept(u, |u|) && forall j: nat {:trigger Survives(u, t, j)} :: j < |u| ==> Survives(u, t, j)
  }

  lemma AllMoved(u: seq<Op>, a: seq<Op>)
    requires AllPlaced(u, a, |u|)
    ensures Kept(u, |u|) <= |a| && Squeezed(u, a[..Kept(u, |u|)])
  {
    var t := a[..Kept(u, |u|)];
    forall j: nat {:trigger Survives(u, t, j)} | j < |u|
      ensures Survives(u, t, j)
    {
      assert Placed(u, a, |u|, j);
      KeptGrows(u, j, |u|);
    }
  }

  /** The instruction that ended up at place `k`. */
  lemma {:induction false} Origin(u: seq<Op>, n: nat, k: nat) returns (j: nat)
    requires k < Kept(u, n)
    ensures j < n && !Deleted(u, j) && Kept(u, j) == k
  {
    if k == Kept(u, n - 1) {
      j := n - 1;
    } else {
      j := Origin(u, n - 1, k);
    }
  }

  /** The partner of instruction `j`, renumbered. */
  ghost predicate FilteredAt(u: seq<Op>, ps: seq<int>, qs: seq<int>, j: nat)
    requires j < |u| == |ps|
  {
    !Deleted(u, j) ==>
      && Kept(u, j) < |qs|
      && (ps[j] == -1 ==> qs[Kept(u, j)] == -1)
      && (ps[j] != -1 ==> 0 <= ps[j] < |u| && !Deleted(u, ps[j]) && qs[Kept(u, j)] == Kept(u, ps[j]))
  }

  /** Partners of the instructions that stay, renumbered. */
  ghost predicate Filtered(u: seq<Op>, ps: seq<int>, qs: seq<int>)
  {
    && |ps| == |u| && |qs| == Kept(u, |u|)
    && forall j: nat {:trigger FilteredAt(u, ps, qs, j)} :: j < |u| ==> FilteredAt(u, ps, qs, j)
  }

  lemma FilterPaired(u: seq<Op>, ps: seq<int>, qs: seq<int>)
    requires Filtered(u, ps, qs) && Paired(ps, |u|)
    ensures Paired(qs, |qs|)
  {
    forall k: nat {:trigger Joined(qs, |qs|, k)} | k < |qs|
      ensures Joined(qs, |qs|, k)
    {
      var j := Origin(u, |u|, k);
      assert Joined(ps, |u|, j) && FilteredAt(u, ps, qs, j);
      if ps[j] != -1 {
        assert FilteredAt(u, ps, qs, ps[j]);
        assert Kept(u, ps[j]) != k by {
          if Kept(u, ps[j]) == k { KeptInjective(u, j, ps[j]); }
        }
      }
    }
    forall k: nat, l: nat | k < |qs| && l < |qs|
      ensures Apart(qs, k, l)
    {
      if k < l < qs[k] && qs[l] != -1 {
        FilterApart(u, ps, qs, k, l);
      }
    }
  }

  lemma FilterApart(u: seq<Op>, ps: seq<int>, qs: seq<int>, k: nat, l: nat)
    requires Filtered(u, ps, qs) && Paired(ps, |u|)
    requires k < |qs| && l < |qs| && k < l < qs[k] && qs[l] != -1
    ensures k < qs[l] < qs[k]
  {
    var i := Origin(u, |u|, k);
    var j := Origin(u, |u|, l);
    assert FilteredAt(u, ps, qs, i) && FilteredAt(u, ps, qs, j);
    KeptOrder(u, i, j);
    KeptOrder(u, j, ps[i]);
    assert Apart(ps, i, j);
    KeptGrows(u, i, ps[j]);
    KeptGrows(u, ps[j], ps[i]);
  }

  /** The new place and links of one instruction. */
  lemma SurvivorAt(u: seq<Op>, t: seq<Op>, j: nat)
    requires Squeezed(u, t) && j < |u| && !Deleted(u, j)
    ensures Kept(u, j) < |t| && t[Kept(u, j)] == Moved(u, |u|, j)
  {
    assert Survives(u, t, j);
  }

  lemma SqueezedPlain(u: seq<Op>, t: seq<Op>, j: nat)
    requires Linked(u) && Unlooped(u) && Squeezed(u, t) && j < |u| && !Deleted(u, j) && !Braced(u[j].kind)
    ensures Kept(u, j) < |t| && LinkedAt(t, Kept(u, j))
  {
    SurvivorAt(u, t, j);
    PartnerFacts(u, j);
    assert LinkedAt(u, j);
    if !Costed(u[j].kind) {
      var m := u[j].mate;
      SurvivorAt(u, t, m);
      if j < m { KeptGrows(u, j, m); } else { KeptGrows(u, m, j); }
    }
  }

  lemma SqueezedBraced(u: seq<Op>, t: seq<Op>, j: nat)
    requires Linked(u) && Unlooped(u) && Squeezed(u, t) && j < |u| && !Deleted(u, j) && Braced(u[j].kind)
    ensures Kept(u, j) < |t| && LinkedAt(t, Kept(u, j))
  {
    var q := QuadOf(u, j);
    DeletedTogether(u, j);
    SurvivorAt(u, t, q.rep1);
    SurvivorAt(u, t, q.inner1);
    SurvivorAt(u, t, q.inner2);
    SurvivorAt(u, t, q.rep2);
    KeptGrows(u, q.rep1, q.inner1);
    KeptGrows(u, q.inner1, q.inner2);
    KeptGrows(u, q.inner2, q.rep2);
    assert LinkedAt(u, q.rep2);
  }

  lemma SqueezedHalves(u: seq<Op>, t: seq<Op>)
    requires Linked(u) && Unlooped(u) && Squeezed(u, t)
    ensures Paired(Halves(t), |t|)
  {
    forall j: nat {:trigger FilteredAt(u, Halves(u), Halves(t), j)} | j < |u|
      ensures FilteredAt(u, Halves(u), Halves(t), j)
    {
      if !Deleted(u, j) {
        SurvivorAt(u, t, j);
        PartnerFacts(u, j);
      }
    }
    FilterPaired(u, Halves(u), Halves(t));
  }

  lemma SqueezedBlocks(u: seq<Op>, t: seq<Op>)
    requires Linked(u) && Unlooped(u) && Squeezed(u, t)
    ensures Paired(Blocks(t), |t|)
  {
    forall j: nat {:trigger FilteredAt(u, Blocks(u), Blocks(t), j)} | j < |u|
      ensures FilteredAt(u, Blocks(u), Blocks(t), j)
    {
      if !Deleted(u, j) {
        SurvivorAt(u, t, j);
        PartnerFacts(u, j);
        assert LinkedAt(u, j);
      }
    }
    FilterPaired(u, Blocks(u), Blocks(t));
  }

  /** Cutting keeps the list linked, and every half that is left runs at least once. */
  lemma SqueezedLinked(u: seq<Op>, t: seq<Op>)
    requires Linked(u) && Unlooped(u) && Squeezed(u, t)
    ensures Linked(t) && Unlooped(t) && EveryHalfRuns(t)
  {
    forall k: nat {:trigger LinkedAt(t, k)} | k < |t|
      ensures LinkedAt(t, k)
    {
      var j := Origin(u, |u|, k);
      if Braced(u[j].kind) { SqueezedBraced(u, t, j); } else { SqueezedPlain(u, t, j); }
    }
    SqueezedHalves(u, t);
    SqueezedBlocks(u, t);
    forall k: nat | k < |t|
      ensures Opens(t[k].kind) ==> 1 <= t[k].count <= MAXCYCLES
      ensures Costed(t[k].kind) ==> t[k].mate == -1
    {
      var j := Origin(u, |u|, k);
      SurvivorAt(u, t, j);
      PartnerFacts(u, j);
      assert LinkedAt(u, j);
      if Opens(u[j].kind) {
        assert LinkedAt(u, u[j].mate) && !ZeroHead(u, j);
        assert u[j].kind == IRep1 ==> LinkedAt(u, u[j].inner);
      }
    }
  }

  /** Cutting out whole halves leaves the depth of what stays as it was. */
  lemma {:induction false} SqueezedDepth(u: seq<Op>, t: seq<Op>, i: nat)
    requires Linked(u) && Squeezed(u, t) && i <= |u| && Boundary(u, i)
    ensures Kept(u, i) <= |t| && Depth(t, Kept(u, i)) == Depth(u, i)
    decreases i
  {
    KeptGrows(u, i, |u|);
    if i > 0 {
      if Deleted(u, i - 1) {
        var d := LastHead(u, i);
        SqueezedDepth(u, t, d);
      } else {
        SurvivorAt(u, t, i - 1);
        SqueezedDepth(u, t, i - 1);
      }
    }
  }

  /** The half cut out just before the boundary `i`. */
  lemma LastHead(u: seq<Op>, i: nat) returns (d: nat)
    requires Linked(u) && 0 < i <= |u| && Boundary(u, i) && Deleted(u, i - 1)
    ensures d < i && Boundary(u, d) && Kept(u, d) == Kept(u, i) && Depth(u, d) == Depth(u, i)
  {
    d :| ZeroHead(u, d) && d <= i - 1 <= u[d].mate;
    OuterBoundary(u, i, d);
    HalfDepth(u, d);
    KeptSkips(u, d, i);
  }

  lemma OuterBoundary(u: seq<Op>, i: nat, d: nat)
    requires Linked(u) && 0 < i <= |u| && Boundary(u, i) && ZeroHead(u, d) && d <= i - 1 <= u[d].mate
    ensures u[d].mate == i - 1 && Boundary(u, d)
  {
    assert LinkedAt(u, d);
    forall c: nat {:trigger ZeroHead(u, c)} | ZeroHead(u, c) && c < d
      ensures u[c].mate < d
    {
      assert LinkedAt(u, c);
      assert Apart(Halves(u), c, d);
    }
  }

  lemma SqueezedShallow(u: seq<Op>, t: seq<Op>)
    requires Linked(u) && Squeezed(u, t) && Shallow(u)
    ensures Shallow(t)
  {
    forall k: nat {:trigger Depth(t, k)} | k <= |t|
      ensures Depth(t, k) <= MAXNEST
    {
      var i := |u|;
      if k < |t| {
        i := Origin(u, |u|, k);
      }
      forall d: nat {:trigger ZeroHead(u, d)} | ZeroHead(u, d) && d < i
        ensures u[d].mate < i
      {
        assert LinkedAt(u, d);
      }
      SqueezedDepth(u, t, i);
      assert Depth(u, i) <= MAXNEST;
    }
  }

  lemma CleanDone(s: seq<Op>, t: seq<Op>)
    requires Linked(s) && Unlooped(s) && Shallow(s) && Squeezed(Final(s), t)
    ensures Linked(t) && Unlooped(t) && Shallow(t) && EveryHalfRuns(t)
  {
    FinalLinked(s);
    FinalUnlooped(s);
    FinalShallow(s);
    SqueezedLinked(Final(s), t);
    SqueezedShallow(Final(s), t);
  }
}
