/** What the reference interpreter makes of parens with a brace and count 0: it skips them as a whole, with
    every brace in them, so that the parens these braces belong to run only once. */
module Skipping {
  import opened Nest
  import opened Ops
  import opened Links
  import opened Loops

  /** A paren with a brace that the interpreter skips. */
  predicate Zero(s: seq<Op>, z: nat)
  {
    z < |s| && s[z].kind == IRep1 && s[z].count == 0
  }

  /** Position `i` lies in the paren that begins at `z`. */
  predicate Within(s: seq<Op>, z: nat, i: int)
    requires z < |s|
  {
    z < i < s[z].inner
  }

  /** The brace of paren `p` is never reached, because it lies in a skipped paren. */
  ghost predicate Cut(s: seq<Op>, p: int)
  {
    0 <= p < |s| && s[p].kind == IRep1 && exists z: nat {:trigger Zero(s, z)} :: Zero(s, z) && Within(s, z, s[p].mate)
  }

  /** Both blocks of a cut paren count as plain repeats: skipped, or run once. */
  ghost function RunOp(s: seq<Op>, i: nat): Op
    requires i < |s|
  {
    var o := s[i];
    if !Braced(o.kind) || !Cut(s, Head(s, i)) then o
    else Op(if o.kind == IRep1 || o.kind == Inner1 then Rep1 else Rep2, o.inner, -1, if o.count == 0 then 0 else 1)
  }

  /** The list that the interpreter in effect runs. */
  ghost function AsRun(s: seq<Op>): (t: seq<Op>)
    ensures |t| == |s|
  {
    seq(|s|, i requires 0 <= i < |s| => RunOp(s, i))
  }

  // The new list is properly linked.

  /** A brace inside of the brace of a cut paren is cut as well. */
  lemma CutSpreads(s: seq<Op>, p: nat, u: nat)
    requires Linked(s) && Cut(s, p) && u < |s| && s[u].kind == IRep1
    requires 0 <= s[p].mate < |s| && s[p].mate < s[u].mate < s[s[p].mate].inner
    ensures Cut(s, u)
  {
    var z: nat :| Zero(s, z) && Within(s, z, s[p].mate);
    FourTokens(s, p);
    FourTokens(s, z);
    assert Apart(Blocks(s), z, s[p].mate);
    assert Within(s, z, s[u].mate);
  }

  /** If the brace of `u` lies in a paren inside of `u`, it lies in the brace of that paren. */
  lemma InBrace(s: seq<Op>, p: nat, u: nat)
    requires Linked(s) && p < |s| && s[p].kind == IRep1 && u < p && s[u].kind == IRep1
    requires p < s[u].mate < s[p].inner
    ensures 0 <= s[p].mate < |s| && s[p].mate < s[u].mate < s[s[p].mate].inner
  {
    FourTokens(s, p);
    FourTokens(s, u);
    var i2, j2 := s[s[p].mate].inner, s[s[u].mate].inner;
    assert Apart(Halves(s), u, p);
    assert Apart(Blocks(s), u, p);
    assert Apart(Blocks(s), p, s[u].mate);
    assert j2 < s[p].inner;
    assert Apart(Halves(s), j2, s[p].inner);
  }

  /** A block of a cut paren that lies in `u` holds the brace of `u` only if `u` is cut as well. */
  lemma NoBraceInside(s: seq<Op>, j: nat, u: nat)
    requires Linked(s) && j < |s| && (s[j].kind == IRep1 || s[j].kind == Inner1) && Cut(s, Head(s, j))
    requires u < j && s[u].kind == IRep1 && !Cut(s, u)
    ensures !(j < s[u].mate < s[j].inner)
  {
    HeadOf(s, j);
    var p: nat := Head(s, j);
    FourTokens(s, p);
    if j < s[u].mate < s[j].inner {
      if j == p { InBrace(s, p, u); }
      CutSpreads(s, p, u);
    }
  }

  lemma RunOpAt(s: seq<Op>, i: nat)
    requires Linked(s) && i < |s|
    ensures AsRun(s)[i] == RunOp(s, i)
    ensures Blocks(AsRun(s))[i] == Blocks(s)[i] && Brackets(AsRun(s))[i] == Brackets(s)[i]
    ensures Halves(AsRun(s))[i] == if Braced(s[i].kind) && Cut(s, Head(s, i)) then Blocks(s)[i] else Halves(s)[i]
  {
    assert LinkedAt(s, i);
  }

  lemma SameBlocks(s: seq<Op>)
    requires Linked(s)
    ensures Blocks(AsRun(s)) == Blocks(s) && Brackets(AsRun(s)) == Brackets(s)
  {
    forall i: nat | i < |s|
      ensures Blocks(AsRun(s))[i] == Blocks(s)[i] && Brackets(AsRun(s))[i] == Brackets(s)[i]
    {
      RunOpAt(s, i);
    }
  }

  lemma RunHalfJoined(s: seq<Op>, i: nat)
    requires Linked(s) && i < |s|
    ensures Joined(Halves(AsRun(s)), |s|, i)
  {
    RunOpAt(s, i);
    assert LinkedAt(s, i) && Joined(Halves(s), |s|, i) && Joined(Blocks(s), |s|, i);
    if !Costed(s[i].kind) {
      if Braced(s[i].kind) { HeadOf(s, i); }
      RunOpAt(s, Halves(AsRun(s))[i]);
    }
  }

  /** A half that is still one does not leave the block of a cut paren. */
  lemma HalfInBlock(s: seq<Op>, i: nat, j: nat)
    requires Linked(s) && i < |s| && j < |s| && Braced(s[i].kind) && Braced(s[j].kind)
    requires Cut(s, Head(s, i)) && !Cut(s, Head(s, j)) && i < j < s[i].inner
    ensures i < s[j].mate < s[i].inner
  {
    HeadOf(s, i);
    HeadOf(s, j);
    var u: nat := Head(s, j);
    FourTokens(s, u);
    assert LinkedAt(s, i);
    assert Apart(Blocks(s), i, j) && Apart(Blocks(s), i, u);
    if u < i { NoBraceInside(s, i, u); }
  }

  /** The block of a cut paren does not leave the first half of another. */
  lemma BlockInFirst(s: seq<Op>, u: nat, j: nat)
    requires Linked(s) && u < |s| && s[u].kind == IRep1 && !Cut(s, u) && u < j < s[u].mate && j < |s|
    requires Braced(s[j].kind) && Cut(s, Head(s, j))
    ensures u < s[j].inner < s[u].mate
  {
    HeadOf(s, j);
    FourTokens(s, u);
    assert LinkedAt(s, j) && LinkedAt(s, s[u].mate);
    assert Apart(Blocks(s), u, j);
    if s[j].inner > s[u].mate { NoBraceInside(s, j, u); }
  }

  lemma BlockInSecond(s: seq<Op>, u: nat, j: nat)
    requires Linked(s) && u < |s| && s[u].kind == IRep1 && !Cut(s, u) && j < s[u].inner && j < |s|
    requires 0 <= s[u].mate < |s| && s[s[u].mate].inner < j
    requires Braced(s[j].kind) && Cut(s, Head(s, j))
    ensures s[s[u].mate].inner < s[j].inner < s[u].inner
  {
    HeadOf(s, j);
    FourTokens(s, u);
    var b := s[j].inner;
    assert LinkedAt(s, j) && LinkedAt(s, b) && LinkedAt(s, s[s[u].mate].inner);
    assert Apart(Blocks(s), u, j);
    if b < s[s[u].mate].inner {
      assert Apart(Blocks(s), b, s[s[u].mate].inner);
      NoBraceInside(s, b, u);
    }
  }

  /** Nor the half at `i`. */
  lemma BlockInHalf(s: seq<Op>, i: nat, j: nat)
    requires Linked(s) && i < |s| && j < |s| && Braced(s[i].kind) && Braced(s[j].kind)
    requires !Cut(s, Head(s, i)) && Cut(s, Head(s, j)) && i < j < s[i].mate
    ensures i < s[j].inner < s[i].mate
  {
    HeadOf(s, i);
    var u: nat := Head(s, i);
    FourTokens(s, u);
    if i == u { BlockInFirst(s, u, j); } else { BlockInSecond(s, u, j); }
  }

  lemma RunHalvesApart(s: seq<Op>, i: nat, j: nat)
    requires Linked(s) && i < |s| && j < |s|
    ensures Apart(Halves(AsRun(s)), i, j)
  {
    var hs := Halves(AsRun(s));
    RunOpAt(s, i);
    RunOpAt(s, j);
    assert LinkedAt(s, i) && LinkedAt(s, j);
    assert Apart(Halves(s), i, j) && Apart(Blocks(s), i, j);
    if i < j < hs[i] && Braced(s[i].kind) && Braced(s[j].kind) {
      if Cut(s, Head(s, i)) && !Cut(s, Head(s, j)) { HalfInBlock(s, i, j); }
      if !Cut(s, Head(s, i)) && Cut(s, Head(s, j)) { BlockInHalf(s, i, j); }
    }
  }

  lemma RunLinkedAt(s: seq<Op>, i: nat)
    requires Linked(s) && i < |s|
    ensures LinkedAt(AsRun(s), i)
  {
    assert LinkedAt(s, i);
    RunOpAt(s, i);
    if Braced(s[i].kind) {
      HeadOf(s, i);
      FourTokens(s, Head(s, i));
      RunOpAt(s, s[i].inner);
      RunOpAt(s, s[i].mate);
      RunOpAt(s, s[s[i].inner].mate);
    } else if Opens(s[i].kind) || Closes(s[i].kind) {
      RunOpAt(s, s[i].mate);
    }
  }

  /** What the interpreter in effect runs is a properly linked list again, with the same blocks. */
  lemma AsRunLinked(s: seq<Op>)
    requires Linked(s)
    ensures Linked(AsRun(s)) && Blocks(AsRun(s)) == Blocks(s) && Brackets(AsRun(s)) == Brackets(s)
  {
    var t := AsRun(s);
    SameBlocks(s);
    forall i: nat {:trigger LinkedAt(t, i)} | i < |t|
      ensures LinkedAt(t, i)
    {
      RunLinkedAt(s, i);
    }
    forall i: nat {:trigger Joined(Halves(t), |t|, i)} | i < |t|
      ensures Joined(Halves(t), |t|, i)
    {
      RunHalfJoined(s, i);
    }
    forall i: nat, j: nat {:trigger Apart(Halves(t), i, j)} | i < |t| && j < |t|
      ensures Apart(Halves(t), i, j)
    {
      RunHalvesApart(s, i, j);
    }
  }

  /** It has the same brackets and ends with `Done`. */
  lemma AsRunFormed(s: seq<Op>)
    requires Linked(s) && Bracketing(s, Brackets(s)) && EndsDone(s)
    ensures Linked(AsRun(s)) && Bracketing(AsRun(s), Brackets(AsRun(s))) && EndsDone(AsRun(s))
  {
    var t := AsRun(s);
    AsRunLinked(s);
    forall i: nat {:trigger BracketAt(t, Brackets(t), i)} | i < |t|
      ensures BracketAt(t, Brackets(t), i)
    {
      RunOpAt(s, i);
      assert BracketAt(s, Brackets(s), i) && LinkedAt(s, i);
      if IsLoop(s[i].kind) { RunOpAt(s, Brackets(s)[i]); }
    }
  }
}
