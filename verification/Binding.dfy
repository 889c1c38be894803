/** The tokens alone determine the links. */
module Binding {
  import opened Nest
  import opened Ops
  import opened Links
  import opened Expansion
  import opened CleanMeaning

  /** Both pairings have their openers and closers in the same places. */
  ghost predicate AlikeAt(ps: seq<int>, qs: seq<int>, i: nat)
  {
    i < |ps| == |qs| ==> (ps[i] == -1 <==> qs[i] == -1) && (ps[i] > i <==> qs[i] > i)
  }

  ghost predicate Alike(ps: seq<int>, qs: seq<int>)
  {
    |ps| == |qs| && forall i: nat {:trigger AlikeAt(ps, qs, i)} :: AlikeAt(ps, qs, i)
  }

  /** Of two different partners of a closer, the nearer one leads to a closer further left that also
      has two. */
  lemma {:induction false} SameOpener(ps: seq<int>, qs: seq<int>, j: nat)
    requires Alike(ps, qs) && Paired(ps, |ps|) && Paired(qs, |qs|)
    requires j < |ps| && 0 <= ps[j] < j
    ensures qs[j] == ps[j]
    decreases j, 1
  {
    assert AlikeAt(ps, qs, j) && Joined(ps, |ps|, j) && Joined(qs, |qs|, j);
    if ps[j] < qs[j] {
      assert AlikeAt(ps, qs, qs[j]);
      SameInside(ps, qs, j, qs[j]);
    } else if qs[j] < ps[j] {
      assert AlikeAt(ps, qs, ps[j]);
      AlikeBack(ps, qs);
      SameInside(qs, ps, j, ps[j]);
    }
  }

  lemma AlikeBack(ps: seq<int>, qs: seq<int>)
    requires Alike(ps, qs)
    ensures Alike(qs, ps)
  {
    forall i: nat {:trigger AlikeAt(qs, ps, i)}
      ensures AlikeAt(qs, ps, i)
    {
      assert AlikeAt(ps, qs, i);
    }
  }

  /** An opener inside the pair of `j` has the same partner in both. */
  lemma {:induction false} SameInside(ps: seq<int>, qs: seq<int>, j: nat, m: nat)
    requires Alike(ps, qs) && Paired(ps, |ps|) && Paired(qs, |qs|)
    requires j < |ps| && 0 <= ps[j] < m < j && m < ps[m]
    ensures ps[m] < j && qs[m] == ps[m]
    decreases j, 0
  {
    assert Joined(ps, |ps|, j) && Joined(ps, |ps|, m) && Apart(ps, ps[j], m);
    var p: nat := ps[m];
    SameOpener(ps, qs, p);
    assert Joined(qs, |qs|, p);
  }

  /** Two proper pairings with the same openers and closers are the same. */
  lemma SamePairs(ps: seq<int>, qs: seq<int>)
    requires Alike(ps, qs) && Paired(ps, |ps|) && Paired(qs, |qs|)
    ensures ps == qs
  {
    forall i: nat | i < |ps|
      ensures ps[i] == qs[i]
    {
      assert AlikeAt(ps, qs, i) && Joined(ps, |ps|, i) && Joined(qs, |qs|, i);
      if ps[i] != -1 {
        if ps[i] < i {
          SameOpener(ps, qs, i);
        } else {
          SameOpener(ps, qs, ps[i]);
          assert Joined(qs, |qs|, ps[i]);
        }
      }
    }
  }

  /** The token that an instruction was written as. */
  function Token(k: Kind): Kind
  {
    if k == IRep1 then Rep1 else if k == IRep2 then Rep2 else k
  }

  /** The same token, and for `)` the same count. */
  ghost predicate SameText(s: seq<Op>, t: seq<Op>, i: nat)
  {
    i < |s| == |t| ==> Token(s[i].kind) == Token(t[i].kind) && (Token(s[i].kind) == Rep2 ==> s[i].count == t[i].count)
  }

  ghost predicate SameTexts(s: seq<Op>, t: seq<Op>)
  {
    |s| == |t| && forall i: nat {:trigger SameText(s, t, i)} :: SameText(s, t, i)
  }

  lemma SameHalvesAndBlocks(s: seq<Op>, t: seq<Op>)
    requires Linked(s) && Linked(t) && SameTexts(s, t)
    ensures Halves(s) == Halves(t) && Blocks(s) == Blocks(t)
  {
    forall i: nat {:trigger AlikeAt(Halves(s), Halves(t), i)}
      ensures AlikeAt(Halves(s), Halves(t), i)
    {
      if i < |s| { assert SameText(s, t, i) && LinkedAt(s, i) && LinkedAt(t, i); }
    }
    SamePairs(Halves(s), Halves(t));
    forall i: nat {:trigger AlikeAt(Blocks(s), Blocks(t), i)}
      ensures AlikeAt(Blocks(s), Blocks(t), i)
    {
      if i < |s| { assert SameText(s, t, i) && LinkedAt(s, i) && LinkedAt(t, i); }
    }
    SamePairs(Blocks(s), Blocks(t));
  }

  /** A list of tokens can be linked in one way only: kinds, links and counts of all parens and braces
      are determined. */
  lemma LinksUnique(s: seq<Op>, t: seq<Op>, i: nat)
    requires Linked(s) && Linked(t) && SameTexts(s, t) && i < |s| && !Costed(s[i].kind)
    ensures s[i] == t[i]
  {
    SameHalvesAndBlocks(s, t);
    assert SameText(s, t, i) && LinkedAt(s, i) && LinkedAt(t, i);
    assert Halves(s)[i] == Halves(t)[i] && Blocks(s)[i] == Blocks(t)[i];
    var m: nat := s[i].mate;
    assert SameText(s, t, m) && LinkedAt(s, m) && LinkedAt(t, m);
    assert Blocks(s)[m] == Blocks(t)[m] && Halves(s)[m] == Halves(t)[m];
    CountsFollow(s, i);
    CountsFollow(t, i);
    assert SameText(s, t, Closing(s, i));
  }

  /** Each token has the count of the `)` of its paren. */
  function Closing(s: seq<Op>, i: nat): int
    requires i < |s|
  {
    match s[i].kind
    case Rep1 => s[i].mate
    case IRep1 => s[i].inner
    case Inner1 => if 0 <= s[i].mate < |s| then s[s[i].mate].inner else -1
    case Inner2 => s[i].mate
    case _ => i
  }

  lemma CountsFollow(s: seq<Op>, i: nat)
    requires Linked(s) && i < |s| && !Costed(s[i].kind)
    ensures 0 <= Closing(s, i) < |s| && Token(s[Closing(s, i)].kind) == Rep2 && s[i].count == s[Closing(s, i)].count
  {
    assert LinkedAt(s, i) && LinkedAt(s, s[i].mate);
  }

  /** `{` belongs to the nearest enclosing paren that has no brace yet: every paren further in that is
      still open has one. */
  lemma NearestParen(s: seq<Op>, b: nat, y: nat)
    requires Linked(s) && b < |s| && s[b].kind == Inner1
    requires s[b].mate < y < b && Token(s[y].kind) == Rep1 && b < Blocks(s)[y]
    ensures 0 <= s[b].mate && Token(s[s[b].mate].kind) == Rep1 && b < Blocks(s)[s[b].mate]
    ensures s[y].kind == IRep1 && y < s[y].mate < b && s[s[y].mate].kind == Inner1
  {
    var p := s[b].mate;
    assert LinkedAt(s, b) && LinkedAt(s, y) && LinkedAt(s, p);
    assert Apart(Halves(s), p, y);
    assert LinkedAt(s, s[b].inner) && LinkedAt(s, s[p].inner);
  }

  /** The same tokens stand for the same program, however they came to be linked. */
  lemma SameProgram(s: seq<Op>, t: seq<Op>)
    requires Linked(s) && Linked(t) && SameTexts(s, t) && EndsDone(s)
    ensures EndsDone(t) && Program(s) == Program(t)
  {
    SameHalvesAndBlocks(s, t);
    forall i | 0 <= i < |t|
      ensures t[i].kind == Done <==> i == |t| - 1
    {
      assert SameText(s, t, i);
    }
    WholeClosed(s);
    forall i: nat {:trigger SameHalf(t, s, i)} | i < |s|
      ensures SameHalf(t, s, i)
    {
      assert SameText(s, t, i);
      if !Costed(s[i].kind) { LinksUnique(s, t, i); }
    }
    SameExpand(t, s, 0, |s| - 1);
  }
}
