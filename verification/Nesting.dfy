/** Static nesting depth of linked lists. */
module Nesting {
  import opened Nest
  import opened Ops
  import opened Links

  /** A segment that no half leaves opens as many halves as it closes. */
  lemma {:induction false} HalvesBalanced(s: seq<Op>, lo: nat, hi: nat)
    requires Linked(s) && lo <= hi <= |s| && Closed(Halves(s), lo, hi)
    ensures Depth(s, hi) == Depth(s, lo)
    decreases hi - lo
  {
    if lo < hi {
      ClosedTail(Halves(s), lo, hi);
      assert LinkedAt(s, lo);
      if Costed(s[lo].kind) {
        HalvesBalanced(s, lo + 1, hi);
      } else {
        var m := s[lo].mate;
        assert LinkedAt(s, m);
        HalvesBalanced(s, lo + 1, m);
        HalvesBalanced(s, m + 1, hi);
      }
    }
  }

  /** So does a segment that no written block leaves: the brace of a paren closes what the paren
      opened, and the other way round. */
  lemma {:induction false} BlocksBalanced(s: seq<Op>, lo: nat, hi: nat)
    requires Linked(s) && lo <= hi <= |s| && Closed(Blocks(s), lo, hi)
    ensures Depth(s, hi) == Depth(s, lo)
    decreases hi - lo
  {
    if lo < hi {
      ClosedTail(Blocks(s), lo, hi);
      assert LinkedAt(s, lo);
      if Costed(s[lo].kind) {
        BlocksBalanced(s, lo + 1, hi);
      } else {
        var m := Blocks(s)[lo];
        assert LinkedAt(s, m);
        BlocksBalanced(s, lo + 1, m);
        BlocksBalanced(s, m + 1, hi);
      }
    }
  }

  /** The two ends of a half sit at the same depth, counted outside the half. */
  lemma HalfDepth(s: seq<Op>, i: nat)
    requires Linked(s) && i < |s| && Opens(s[i].kind)
    ensures i < s[i].mate < |s| && Depth(s, s[i].mate) == Depth(s, i) + 1
    ensures Depth(s, s[i].mate + 1) == Depth(s, i)
  {
    assert LinkedAt(s, i) && LinkedAt(s, s[i].mate);
    InsideClosed(Halves(s), i);
    HalvesBalanced(s, i + 1, s[i].mate);
  }
}
