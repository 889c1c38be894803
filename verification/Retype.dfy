/** Splitting the parens that have an idle half leaves a fully linked list. */
module Retype {
  import opened Nest
  import opened Ops
  import opened Links
  import opened Clean

  /** The list after every half has been judged. */
  ghost function Final(s: seq<Op>): (t: seq<Op>)
    requires Linked(s)
    ensures |t| == |s|
  {
    Retyped(s, |s|)
  }

  /** The braced paren of `i` is split into two plain repeats. */
  ghost predicate Split(s: seq<Op>, i: nat)
    requires i < |s| && Linked(s) && Braced(s[i].kind)
  {
    Idle(s, QuadOf(s, i).inner1) || Idle(s, QuadOf(s, i).rep2)
  }

  /** What judging does to one token. */
  lemma FinalOp(s: seq<Op>, i: nat)
    requires Linked(s) && i < |s|
    ensures Costed(s[i].kind) ==> Final(s)[i] == s[i]
    ensures !Costed(s[i].kind) ==> 0 <= s[i].mate < |s|
    ensures !Costed(s[i].kind) && !(Braced(s[i].kind) && Split(s, i)) ==>
              Final(s)[i] == s[i].(count := if Idle(s, i) then 0 else s[i].count)
    ensures Braced(s[i].kind) && Split(s, i) ==>
              Final(s)[i] == Op(PlainKind(s[i].kind), s[i].mate, -1, if Idle(s, i) then 0 else s[i].count)
  {
    assert LinkedAt(s, i);
    if Braced(s[i].kind) {
      assert LinkedAt(s, QuadOf(s, i).inner1) && LinkedAt(s, QuadOf(s, i).rep2);
    }
  }

  lemma IdleBothWays(s: seq<Op>, i: nat)
    requires Linked(s) && i < |s| && !Costed(s[i].kind)
    ensures 0 <= s[i].mate < |s| && s[s[i].mate].mate == i && !Costed(s[s[i].mate].kind)
    ensures Idle(s, s[i].mate) == Idle(s, i)
  {
    assert LinkedAt(s, i) && LinkedAt(s, s[i].mate);
  }

  lemma FinalHalves(s: seq<Op>)
    requires Linked(s)
    ensures Halves(Final(s)) == Halves(s)
  {
    forall i: nat | i < |s|
      ensures Halves(Final(s))[i] == Halves(s)[i]
    {
      FinalOp(s, i);
    }
  }

  /** All four tokens of a braced paren are split or none is. */
  lemma SplitTogether(s: seq<Op>, i: nat, j: nat)
    requires Linked(s) && i < |s| && j < |s| && Braced(s[i].kind) && Braced(s[j].kind)
    requires InQuad(QuadOf(s, i), j)
    ensures QuadOf(s, j) == QuadOf(s, i) && Split(s, j) == Split(s, i)
  {
    SameQuad(s, i, j);
  }

  lemma FinalLinks(s: seq<Op>, i: nat)
    requires Linked(s) && i < |s|
    ensures LinkedAt(Final(s), i)
  {
    var t := Final(s);
    assert LinkedAt(s, i);
    FinalOp(s, i);
    if !Costed(s[i].kind) {
      IdleBothWays(s, i);
      FinalOp(s, s[i].mate);
      if Braced(s[i].kind) {
        FinalBracedLinks(s, i);
      }
    }
  }

  lemma FinalBracedLinks(s: seq<Op>, i: nat)
    requires Linked(s) && i < |s| && Braced(s[i].kind)
    ensures LinkedAt(Final(s), i)
  {
    var q, t, split := QuadOf(s, i), Final(s), Split(s, i);
    forall j | InQuad(q, j)
      ensures QuadAt(s, t, split, j)
    {
      QuadFinal(s, i, j);
    }
    IdleBothWays(s, q.inner1);
    IdleBothWays(s, q.rep2);
    assert LinkedAt(s, q.rep2);
    QuadLinks(s, t, q, split, i);
  }

  ghost predicate QuadAt(s: seq<Op>, t: seq<Op>, split: bool, j: int)
  {
    0 <= j < |s| == |t| && 0 <= s[j].mate < |s| &&
    var o := if Idle(s, j) then s[j].(count := 0) else s[j];
    t[j] == if split then o.(kind := PlainKind(o.kind), inner := -1) else o
  }

  /** The tokens of a paren that has been split, or not, are linked. */
  lemma QuadLinks(s: seq<Op>, t: seq<Op>, q: Quad, split: bool, i: nat)
    requires |t| == |s| && 0 <= q.rep1 < q.inner1 < q.inner2 < q.rep2 < |s| && 0 <= s[q.rep2].count <= MAXCYCLES
    requires s[q.rep1].kind == IRep1 && s[q.inner1].kind == Inner1 && s[q.inner2].kind == Inner2 && s[q.rep2].kind == IRep2
    requires s[q.rep1].mate == q.inner1 && s[q.inner1].mate == q.rep1 && s[q.inner2].mate == q.rep2 && s[q.rep2].mate == q.inner2
    requires s[q.rep1].inner == q.rep2 && s[q.rep2].inner == q.rep1 && s[q.inner1].inner == q.inner2 && s[q.inner2].inner == q.inner1
    requires s[q.rep1].count == s[q.inner1].count == s[q.inner2].count == s[q.rep2].count
    requires Idle(s, q.rep1) == Idle(s, q.inner1) && Idle(s, q.inner2) == Idle(s, q.rep2)
    requires !split ==> !Idle(s, q.inner1) && !Idle(s, q.rep2)
    requires forall j :: InQuad(q, j) ==> QuadAt(s, t, split, j)
    requires i < |t| && InQuad(q, i)
    ensures LinkedAt(t, i)
  {
    assert InQuad(q, q.rep1) && InQuad(q, q.inner1) && InQuad(q, q.inner2) && InQuad(q, q.rep2);
  }

  /** What becomes of token `j` of the paren of `i`. */
  lemma QuadFinal(s: seq<Op>, i: nat, j: nat)
    requires Linked(s) && i < |s| && j < |s| && Braced(s[i].kind) && Braced(s[j].kind) && InQuad(QuadOf(s, i), j)
    ensures QuadAt(s, Final(s), Split(s, i), j)
  {
    SplitTogether(s, i, j);
    FinalOp(s, j);
    assert LinkedAt(s, j);
  }

  /** Two braced parens share no token. */
  predicate Distinct(P: Quad, D: Quad)
  {
    && P.rep1 != D.rep1 && P.inner1 != D.inner1 && P.inner2 != D.inner2 && P.rep2 != D.rep2
    && P.rep1 != D.inner1 && P.rep1 != D.inner2 && P.rep2 != D.inner2
  }

  lemma QuadsDistinct(s: seq<Op>, i: nat, j: nat)
    requires Linked(s) && i < |s| && j < |s| && Braced(s[i].kind) && Braced(s[j].kind)
    requires QuadOf(s, i) != QuadOf(s, j)
    ensures Distinct(QuadOf(s, i), QuadOf(s, j))
  {
    var P := QuadOf(s, i);
    SameQuad(s, i, P.rep1);
    SameQuad(s, i, P.inner1);
    SameQuad(s, i, P.inner2);
    SameQuad(s, i, P.rep2);
    SameQuad(s, j, P.rep1);
    SameQuad(s, j, P.inner1);
    SameQuad(s, j, P.inner2);
    SameQuad(s, j, P.rep2);
  }

  /** A braced paren `P` and a braced paren `D` that is cut into its halves: when the halves of `P`
      do not both lie inside those of `D`, no written block of `P` crosses a half of `D`. */
  lemma QuadsUncrossed(P: Quad, D: Quad)
    requires P.rep1 < P.inner1 < P.inner2 < P.rep2 && D.rep1 < D.inner1 < D.inner2 < D.rep2
    requires Uncrossed(P.rep1, P.inner1, D.rep1, D.inner1) && Uncrossed(P.rep1, P.inner1, D.inner2, D.rep2)
    requires Uncrossed(P.inner2, P.rep2, D.rep1, D.inner1) && Uncrossed(P.inner2, P.rep2, D.inner2, D.rep2)
    requires Uncrossed(P.rep1, P.rep2, D.rep1, D.rep2) && Uncrossed(P.rep1, P.rep2, D.inner1, D.inner2)
    requires Uncrossed(P.inner1, P.inner2, D.rep1, D.rep2) && Uncrossed(P.inner1, P.inner2, D.inner1, D.inner2)
    requires Distinct(P, D)
    requires !(D.rep1 < P.rep1 && P.inner1 < D.inner1 && D.inner2 < P.inner2 && P.rep2 < D.rep2)
    ensures Uncrossed(P.rep1, P.rep2, D.rep1, D.inner1) && Uncrossed(P.rep1, P.rep2, D.inner2, D.rep2)
    ensures Uncrossed(P.inner1, P.inner2, D.rep1, D.inner1) && Uncrossed(P.inner1, P.inner2, D.inner2, D.rep2)
  {
  }

  lemma HalvesUncrossed(s: seq<Op>, i: nat, j: nat)
    requires Linked(s) && i < |s| && j < |s| && Braced(s[i].kind) && Braced(s[j].kind)
    requires Distinct(QuadOf(s, i), QuadOf(s, j))
    ensures var P, D := QuadOf(s, i), QuadOf(s, j);
            && Uncrossed(P.rep1, P.inner1, D.rep1, D.inner1) && Uncrossed(P.rep1, P.inner1, D.inner2, D.rep2)
            && Uncrossed(P.inner2, P.rep2, D.rep1, D.inner1) && Uncrossed(P.inner2, P.rep2, D.inner2, D.rep2)
  {
    var P, D, hs := QuadOf(s, i), QuadOf(s, j), Halves(s);
    PairsUncrossed(hs, |s|, P.rep1, D.rep1);
    PairsUncrossed(hs, |s|, P.rep1, D.inner2);
    PairsUncrossed(hs, |s|, P.inner2, D.rep1);
    PairsUncrossed(hs, |s|, P.inner2, D.inner2);
  }

  lemma BlocksUncrossed(s: seq<Op>, i: nat, j: nat)
    requires Linked(s) && i < |s| && j < |s| && Braced(s[i].kind) && Braced(s[j].kind)
    requires Distinct(QuadOf(s, i), QuadOf(s, j))
    ensures var P, D := QuadOf(s, i), QuadOf(s, j);
            && Uncrossed(P.rep1, P.rep2, D.rep1, D.rep2) && Uncrossed(P.rep1, P.rep2, D.inner1, D.inner2)
            && Uncrossed(P.inner1, P.inner2, D.rep1, D.rep2) && Uncrossed(P.inner1, P.inner2, D.inner1, D.inner2)
  {
    var P, D, bs := QuadOf(s, i), QuadOf(s, j), Blocks(s);
    PairsUncrossed(bs, |s|, P.rep1, D.rep1);
    PairsUncrossed(bs, |s|, P.rep1, D.inner1);
    PairsUncrossed(bs, |s|, P.inner1, D.rep1);
    PairsUncrossed(bs, |s|, P.inner1, D.inner1);
  }

  /** A paren whose halves lie inside those of a split paren is split as well. */
  lemma SplitInside(s: seq<Op>, i: nat, j: nat)
    requires Linked(s) && i < |s| && j < |s| && Braced(s[i].kind) && Braced(s[j].kind) && Split(s, j)
    ensures var P, D := QuadOf(s, i), QuadOf(s, j);
            D.rep1 < P.rep1 && P.inner1 < D.inner1 && D.inner2 < P.inner2 && P.rep2 < D.rep2 ==> Split(s, i)
  {
  }

  /** No block of an unsplit paren crosses a half of a split one. */
  lemma SplitUncrossed(s: seq<Op>, i: nat, j: nat)
    requires Linked(s) && i < |s| && j < |s| && Braced(s[i].kind) && Braced(s[j].kind)
    requires !Split(s, i) && Split(s, j)
    ensures var P, D := QuadOf(s, i), QuadOf(s, j);
            && Uncrossed(P.rep1, P.rep2, D.rep1, D.inner1) && Uncrossed(P.rep1, P.rep2, D.inner2, D.rep2)
            && Uncrossed(P.inner1, P.inner2, D.rep1, D.inner1) && Uncrossed(P.inner1, P.inner2, D.inner2, D.rep2)
  {
    SplitInside(s, i, j);
    QuadsDistinct(s, i, j);
    HalvesUncrossed(s, i, j);
    BlocksUncrossed(s, i, j);
    QuadsUncrossed(QuadOf(s, i), QuadOf(s, j));
  }

  ghost predicate IsSplit(s: seq<Op>, i: nat)
    requires i < |s| && Linked(s)
  {
    Braced(s[i].kind) && Split(s, i)
  }

  ghost predicate IsWhole(s: seq<Op>, i: nat)
    requires i < |s| && Linked(s)
  {
    Braced(s[i].kind) && !Split(s, i)
  }

  /** A token of a split paren is paired by halves, one of an unsplit paren by blocks, and one of a
      plain repeat by either. */
  lemma FinalPartner(s: seq<Op>, i: nat)
    requires Linked(s) && i < |s|
    ensures !IsWhole(s, i) ==> Blocks(Final(s))[i] == Halves(s)[i]
    ensures !IsSplit(s, i) ==> Blocks(Final(s))[i] == Blocks(s)[i]
  {
    FinalOp(s, i);
    assert LinkedAt(s, i);
  }

  /** Neither pair of a token of an unsplit paren and a token of a split one crosses the other. */
  lemma MixedApart(s: seq<Op>, i: nat, j: nat)
    requires Linked(s) && i < |s| && j < |s| && IsWhole(s, i) && IsSplit(s, j)
    ensures i < j < Blocks(s)[i] ==> i < Halves(s)[j] < Blocks(s)[i]
    ensures j < i < Halves(s)[j] ==> j < Blocks(s)[i] < Halves(s)[j]
  {
    SplitUncrossed(s, i, j);
    QuadsDistinct(s, i, j);
  }

  lemma FinalApart(s: seq<Op>, i: nat, j: nat)
    requires Linked(s) && i < |s| && j < |s|
    ensures Apart(Blocks(Final(s)), i, j)
  {
    FinalPartner(s, i);
    FinalPartner(s, j);
    if !IsWhole(s, i) && !IsWhole(s, j) {
      assert Apart(Halves(s), i, j);
    } else if !IsSplit(s, i) && !IsSplit(s, j) {
      assert Apart(Blocks(s), i, j);
    } else if IsSplit(s, i) {
      MixedApart(s, j, i);
    } else {
      MixedApart(s, i, j);
    }
  }

  lemma FinalLinked(s: seq<Op>)
    requires Linked(s)
    ensures Linked(Final(s))
  {
    var t := Final(s);
    forall i: nat {:trigger LinkedAt(t, i)} | i < |s|
      ensures LinkedAt(t, i)
    {
      FinalLinks(s, i);
    }
    FinalHalves(s);
    var bs := Blocks(t);
    forall i: nat {:trigger Joined(bs, |s|, i)} | i < |s|
      ensures Joined(bs, |s|, i)
    {
      BlocksJoined(t, i);
    }
    forall i: nat, j: nat | i < |s| && j < |s|
      ensures Apart(bs, i, j)
    {
      FinalApart(s, i, j);
    }
  }

  /** Consistent links give pairs that point back. */
  lemma BlocksJoined(t: seq<Op>, i: nat)
    requires i < |t| && forall k: nat {:trigger LinkedAt(t, k)} :: k < |t| ==> LinkedAt(t, k)
    ensures Joined(Blocks(t), |t|, i)
  {
    assert LinkedAt(t, i);
    if !Costed(t[i].kind) {
      assert LinkedAt(t, t[i].mate);
      if Braced(t[i].kind) {
        assert LinkedAt(t, t[i].inner);
      }
    }
  }

  lemma {:induction false} FinalDepth(s: seq<Op>, i: nat)
    requires Linked(s) && i <= |s|
    ensures Depth(Final(s), i) == Depth(s, i)
  {
    if i > 0 {
      FinalDepth(s, i - 1);
      FinalOp(s, i - 1);
    }
  }

  lemma FinalShallow(s: seq<Op>)
    requires Linked(s) && Shallow(s)
    ensures Shallow(Final(s))
  {
    forall i: nat {:trigger Depth(Final(s), i)} | i <= |s|
      ensures Depth(Final(s), i) <= MAXNEST
    {
      FinalDepth(s, i);
      assert Depth(s, i) <= MAXNEST;
    }
  }

  lemma FinalUnlooped(s: seq<Op>)
    requires Linked(s) && Unlooped(s)
    ensures Unlooped(Final(s))
  {
    forall i: nat | i < |s|
      ensures Costed(Final(s)[i].kind) ==> Final(s)[i].mate == -1
    {
      FinalOp(s, i);
    }
  }
}
