/** The clean-up passes do not change what a program stands for. */
module CleanMeaning {
  import opened Nest
  import opened Ops
  import opened Links
  import opened Clean
  import opened Retype
  import opened Compact
  import opened Expansion
  import opened Loops
  import opened MatchState

  /** A segment without costed instructions expands to nothing. */
  lemma {:induction false} EmptyExpand(s: seq<Op>, lo: nat, hi: nat)
    requires Linked(s) && lo <= hi <= |s| && Closed(Halves(s), lo, hi) && Empty(s, lo, hi)
    ensures Expand(s, lo, hi) == []
    decreases hi - lo
  {
    if lo < hi {
      ClosedTail(Halves(s), lo, hi);
      assert LinkedAt(s, lo);
      EmptyExpand(s, lo + 1, s[lo].mate);
      EmptyExpand(s, s[lo].mate + 1, hi);
      RepeatNothing<Kind>(s[lo].count);
    }
  }

  lemma {:induction false} RepeatNothing<T>(n: int)
    ensures Repeat<T>([], n) == []
    decreases if n < 0 then 0 else n
  {
    if n > 0 { RepeatNothing<T>(n - 1); }
  }

  /** Instruction `i` costs or repeats the same in both lists, except that halves without content
      may have any count. */
  ghost predicate SameHalf(s: seq<Op>, t: seq<Op>, i: nat)
    requires i < |s| == |t|
  {
    && (Costed(s[i].kind) ==> t[i].kind == s[i].kind)
    && (Opens(s[i].kind) ==> Opens(t[i].kind) && t[i].mate == s[i].mate)
    && (Opens(s[i].kind) && s[i].mate <= |s| ==> t[i].count == s[i].count || Empty(s, i + 1, s[i].mate))
  }

  lemma {:induction false} SameExpand(s: seq<Op>, t: seq<Op>, lo: nat, hi: nat)
    requires Linked(s) && Linked(t) && Halves(t) == Halves(s)
    requires forall i: nat {:trigger SameHalf(s, t, i)} :: i < |s| == |t| ==> SameHalf(s, t, i)
    requires lo <= hi <= |s| == |t| && Closed(Halves(s), lo, hi)
    ensures Expand(t, lo, hi) == Expand(s, lo, hi)
    decreases hi - lo, 1
  {
    if lo < hi {
      LeadExpand(s, lo, hi);
      LeadExpand(t, lo, hi);
      SameLead(s, t, lo, hi);
      SameExpand(s, t, After(s, lo), hi);
    }
  }

  lemma {:induction false} SameLead(s: seq<Op>, t: seq<Op>, lo: nat, hi: nat)
    requires Linked(s) && Linked(t) && Halves(t) == Halves(s)
    requires forall i: nat {:trigger SameHalf(s, t, i)} :: i < |s| == |t| ==> SameHalf(s, t, i)
    requires lo < hi <= |s| == |t| && lo < After(s, lo) <= hi && !Closes(s[lo].kind)
    ensures !Closes(t[lo].kind) && After(t, lo) == After(s, lo) && Leading(t, lo) == Leading(s, lo)
    decreases hi - lo, 0
  {
    assert SameHalf(s, t, lo);
    if Opens(s[lo].kind) {
      HalfInside(s, lo);
      SameExpand(s, t, lo + 1, s[lo].mate);
      if t[lo].count != s[lo].count { EmptyLead(s, t, lo, s[lo].mate); }
    }
  }

  /** A half without content stands for nothing, whatever its count. */
  lemma EmptyLead(s: seq<Op>, t: seq<Op>, lo: nat, m: nat)
    requires Linked(s) && Linked(t) && lo < |s| == |t| && Opens(s[lo].kind) && Opens(t[lo].kind) && s[lo].mate == t[lo].mate == m
    requires lo < m <= |s| && Empty(s, lo + 1, m) && Closed(Halves(s), lo + 1, m) && Closed(Halves(t), lo + 1, m)
    requires Expand(t, lo + 1, m) == Expand(s, lo + 1, m)
    ensures Leading(s, lo) == [] == Leading(t, lo)
  {
    EmptyExpand(s, lo + 1, m);
    RepeatNothing<Kind>(s[lo].count);
    RepeatNothing<Kind>(t[lo].count);
  }

  /** Giving count 0 to idle halves and splitting parens keeps the expansion. */
  lemma FinalExpand(s: seq<Op>, lo: nat, hi: nat)
    requires Linked(s) && lo <= hi <= |s| && Closed(Halves(s), lo, hi)
    ensures Linked(Final(s)) && Closed(Halves(Final(s)), lo, hi)
    ensures Expand(Final(s), lo, hi) == Expand(s, lo, hi)
  {
    var t := Final(s);
    FinalLinked(s);
    FinalHalves(s);
    forall i: nat {:trigger SameHalf(s, t, i)} | i < |s|
      ensures SameHalf(s, t, i)
    {
      FinalOp(s, i);
      assert LinkedAt(s, i);
    }
    SameExpand(s, t, lo, hi);
  }

  lemma SqueezedClosed(u: seq<Op>, t: seq<Op>, lo: nat, hi: nat)
    requires Linked(u) && Unlooped(u) && Squeezed(u, t) && lo <= hi <= |u| && Closed(Halves(u), lo, hi)
    ensures Kept(u, lo) <= Kept(u, hi) <= |t| && Closed(Halves(t), Kept(u, lo), Kept(u, hi))
  {
    KeptGrows(u, lo, hi);
    KeptGrows(u, hi, |u|);
    forall k: nat {:trigger Inside(Halves(t), Kept(u, lo), Kept(u, hi), k)} | Kept(u, lo) <= k < Kept(u, hi)
      ensures Inside(Halves(t), Kept(u, lo), Kept(u, hi), k)
    {
      var j := Origin(u, hi, k);
      SurvivorAt(u, t, j);
      PartnerFacts(u, j);
      if j < lo { KeptGrows(u, j, lo); }
      assert Inside(Halves(u), lo, hi, j);
      var m := Halves(u)[j];
      if m != -1 {
        KeptGrows(u, lo, m);
        KeptGrows(u, m, hi);
      }
    }
  }

  lemma BoundaryInside(u: seq<Op>, lo: nat)
    requires Linked(u) && lo < |u| && Boundary(u, lo) && Opens(u[lo].kind)
    ensures lo < u[lo].mate < |u| && Boundary(u, u[lo].mate + 1)
  {
    assert LinkedAt(u, lo);
    forall d: nat {:trigger ZeroHead(u, d)} | ZeroHead(u, d) && d < u[lo].mate + 1
      ensures u[d].mate < u[lo].mate + 1
    {
      assert LinkedAt(u, d) && Apart(Halves(u), lo, d);
    }
  }

  /** Cutting out what runs zero times keeps the expansion. */
  lemma {:induction false} SqueezedExpand(u: seq<Op>, t: seq<Op>, lo: nat, hi: nat)
    requires Linked(u) && Unlooped(u) && Squeezed(u, t) && Linked(t)
    requires lo <= hi <= |u| && Closed(Halves(u), lo, hi) && Boundary(u, lo)
    ensures Kept(u, lo) <= Kept(u, hi) <= |t| && Closed(Halves(t), Kept(u, lo), Kept(u, hi))
    ensures Expand(t, Kept(u, lo), Kept(u, hi)) == Expand(u, lo, hi)
    decreases hi - lo
  {
    SqueezedClosed(u, t, lo, hi);
    if lo < hi {
      ClosedTail(Halves(u), lo, hi);
      assert LinkedAt(u, lo);
      StaysAtBoundary(u, lo);
      if ZeroHead(u, lo) {
        var m := u[lo].mate;
        KeptSkips(u, lo, m + 1);
        BoundaryInside(u, lo);
        SqueezedExpand(u, t, m + 1, hi);
      } else {
        SqueezedFirst(u, t, lo, hi);
      }
    }
  }

  /** Where the first instruction of a segment goes when it stays. */
  lemma SqueezedHead(u: seq<Op>, t: seq<Op>, lo: nat, hi: nat)
    requires Linked(u) && Unlooped(u) && Squeezed(u, t)
    requires lo < hi <= |u| && Closed(Halves(u), lo, hi) && Boundary(u, lo) && !Deleted(u, lo)
    ensures Kept(u, lo) < Kept(u, hi) <= |t| && Closed(Halves(t), Kept(u, lo), Kept(u, hi))
    ensures t[Kept(u, lo)].kind == u[lo].kind && t[Kept(u, lo)].count == u[lo].count
    ensures Kept(u, lo + 1) == Kept(u, lo) + 1
    ensures Opens(u[lo].kind) ==>
              && lo < u[lo].mate < hi && t[Kept(u, lo)].mate == Kept(u, u[lo].mate)
              && Kept(u, u[lo].mate + 1) == Kept(u, u[lo].mate) + 1
              && Boundary(u, u[lo].mate + 1)
  {
    SqueezedClosed(u, t, lo, hi);
    KeptGrows(u, lo, hi);
    SurvivorAt(u, t, lo);
    if Opens(u[lo].kind) {
      ClosedTail(Halves(u), lo, hi);
      DeletedPartners(u, lo);
      BoundaryInside(u, lo);
    }
  }

  /** Two segments that begin alike and go on alike expand alike. */
  lemma SameHead(u: seq<Op>, t: seq<Op>, lo: nat, hi: nat, a: nat, b: nat)
    requires Linked(u) && Linked(t) && lo < hi <= |u| && a < b <= |t|
    requires Closed(Halves(u), lo, hi) && Closed(Halves(t), a, b)
    requires t[a].kind == u[lo].kind && t[a].count == u[lo].count
    requires Costed(u[lo].kind) ==>
               && Closed(Halves(u), lo + 1, hi) && Closed(Halves(t), a + 1, b)
               && Expand(t, a + 1, b) == Expand(u, lo + 1, hi)
    requires Opens(u[lo].kind) ==>
               && lo < u[lo].mate < hi && a < t[a].mate < b
               && Closed(Halves(u), lo + 1, u[lo].mate) && Closed(Halves(t), a + 1, t[a].mate)
               && Closed(Halves(u), u[lo].mate + 1, hi) && Closed(Halves(t), t[a].mate + 1, b)
               && Expand(t, a + 1, t[a].mate) == Expand(u, lo + 1, u[lo].mate)
               && Expand(t, t[a].mate + 1, b) == Expand(u, u[lo].mate + 1, hi)
    ensures Expand(t, a, b) == Expand(u, lo, hi)
  {
    ExpandHead(u, lo, hi);
    ExpandHead(t, a, b);
  }

  lemma {:induction false} SqueezedFirst(u: seq<Op>, t: seq<Op>, lo: nat, hi: nat)
    requires Linked(u) && Unlooped(u) && Squeezed(u, t) && Linked(t)
    requires lo < hi <= |u| && Closed(Halves(u), lo, hi) && Boundary(u, lo) && !ZeroHead(u, lo) && !Deleted(u, lo)
    ensures Kept(u, lo) <= Kept(u, hi) <= |t| && Closed(Halves(t), Kept(u, lo), Kept(u, hi))
    ensures Expand(t, Kept(u, lo), Kept(u, hi)) == Expand(u, lo, hi)
    decreases hi - lo, 0
  {
    SqueezedHead(u, t, lo, hi);
    BoundaryStep(u, lo);
    ClosedTail(Halves(u), lo, hi);
    assert LinkedAt(u, lo);
    if Costed(u[lo].kind) {
      SqueezedExpand(u, t, lo + 1, hi);
    } else {
      SqueezedExpand(u, t, lo + 1, u[lo].mate);
      SqueezedExpand(u, t, u[lo].mate + 1, hi);
    }
    SameHead(u, t, lo, hi, Kept(u, lo), Kept(u, hi));
  }

  /** The clean-up passes keep the meaning of the program. */
  lemma CleanKeepsProgram(s: seq<Op>, t: seq<Op>)
    requires Linked(s) && Unlooped(s) && EndsDone(s) && Squeezed(Final(s), t) && Linked(t)
    ensures EndsDone(t) && Program(t) == Program(s)
  {
    var u, n: nat := Final(s), |s| - 1;
    FinalLinked(s);
    FinalUnlooped(s);
    FinalEndsDone(s);
    SqueezedEndsDone(u, t);
    WholeClosed(s);
    FinalExpand(s, 0, n);
    SqueezedExpand(u, t, 0, n);
  }

  lemma FinalEndsDone(s: seq<Op>)
    requires Linked(s) && EndsDone(s)
    ensures EndsDone(Final(s))
  {
    forall i | 0 <= i < |s|
      ensures Final(s)[i].kind == Done <==> i == |s| - 1
    {
      FinalOp(s, i);
    }
  }

  lemma DoneStays(u: seq<Op>)
    requires Linked(u) && EndsDone(u)
    ensures !Deleted(u, |u| - 1)
  {
    forall d: nat {:trigger ZeroHead(u, d)} | ZeroHead(u, d)
      ensures u[d].mate < |u| - 1
    {
      assert LinkedAt(u, d) && LinkedAt(u, u[d].mate);
    }
  }

  lemma SqueezedEndsDone(u: seq<Op>, t: seq<Op>)
    requires Linked(u) && Squeezed(u, t) && EndsDone(u)
    ensures EndsDone(t) && Kept(u, |u| - 1) == |t| - 1
  {
    var n: nat := |u| - 1;
    DoneStays(u);
    forall k: nat | k < |t|
      ensures t[k].kind == Done <==> k == |t| - 1
    {
      var j := Origin(u, |u|, k);
      SurvivorAt(u, t, j);
      if j < n { KeptGrows(u, j, n); }
    }
  }

  /** Linking the brackets keeps it as well. */
  lemma LoopsKeepProgram(u: seq<Op>, s: seq<Op>)
    requires Linked(u) && EndsDone(u) && SameButLoops(u, s)
    ensures Linked(s) && EndsDone(s) && Program(s) == Program(u)
  {
    LinkedSameButLoops(u, s);
    forall i: nat {:trigger SameHalf(u, s, i)} | i < |u|
      ensures SameHalf(u, s, i)
    {
    }
    WholeClosed(u);
    SameExpand(u, s, 0, |u| - 1);
  }

  lemma MatchedList(raw: seq<Op>, m: seq<Op>)
    requires Raw(raw) && |m| == |raw| && Linked(m) && forall i :: 0 <= i < |m| ==> SameToken(raw[i], m[i])
    ensures Unlooped(m) && EndsDone(m)
  {
    forall i: nat | i < |m|
      ensures (Costed(m[i].kind) ==> m[i].mate == -1) && (m[i].kind == Done <==> i == |m| - 1)
    {
      assert RawAt(raw, i) && SameToken(raw[i], m[i]);
    }
  }
}
