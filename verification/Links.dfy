/** The four-way links that the parser builds between `(`, `{`, `}` and `)`. */
module Links {
  import opened Nest
  import opened Ops

  /** The links of instruction `i` agree with those of its partners, all among the first `n`
      instructions. A link that is still missing is -1. */
  ghost predicate Link(s: seq<Op>, i: nat, n: nat)
    requires i < n <= |s|
  {
    var o := s[i];
    match o.kind
    case Rep1 =>
      && o.inner == -1
      && (o.mate != -1 ==>
            i < o.mate < n && s[o.mate].kind == Rep2 && s[o.mate].mate == i && s[o.mate].count == o.count)
    case Rep2 =>
      && o.inner == -1 && 0 <= o.count <= MAXCYCLES
      && 0 <= o.mate < i && s[o.mate].kind == Rep1 && s[o.mate].mate == i
    case IRep1 =>
      && i < o.mate < n && s[o.mate].kind == Inner1 && s[o.mate].mate == i
      && (o.inner != -1 ==>
            && o.mate < o.inner < n && s[o.inner].kind == IRep2 && s[o.inner].inner == i
            && s[o.inner].mate == s[o.mate].inner
            && o.count == s[o.inner].count == s[o.mate].count)
    case Inner1 =>
      && 0 <= o.mate < i && s[o.mate].kind == IRep1 && s[o.mate].mate == i
      && (o.inner != -1 ==> i < o.inner < n && s[o.inner].kind == Inner2 && s[o.inner].inner == i)
    case Inner2 =>
      && 0 <= o.inner < i && s[o.inner].kind == Inner1 && s[o.inner].inner == i
      && (o.mate != -1 ==>
            i < o.mate < n && s[o.mate].kind == IRep2 && s[o.mate].mate == i && s[o.mate].count == o.count)
    case IRep2 =>
      && 0 <= o.count <= MAXCYCLES
      && 0 <= o.mate < i && s[o.mate].kind == Inner2 && s[o.mate].mate == i
      && 0 <= o.inner < o.mate && s[o.inner].kind == IRep1 && s[o.inner].inner == i
    case _ =>
      o.inner == -1
  }

  /** No link of instruction `o` is missing. */
  predicate Complete(o: Op)
  {
    (Opens(o.kind) || Closes(o.kind) ==> o.mate != -1) &&
    (Braced(o.kind) ==> o.inner != -1)
  }

  ghost predicate LinkedAt(s: seq<Op>, i: nat)
    requires i < |s|
  {
    Link(s, i, |s|) && Complete(s[i])
  }

  /** A list whose parens and braces are fully and consistently linked. */
  ghost predicate Linked(s: seq<Op>)
  {
    && (forall i: nat {:trigger LinkedAt(s, i)} :: i < |s| ==> LinkedAt(s, i))
    && Paired(Halves(s), |s|)
    && Paired(Blocks(s), |s|)
  }

  /** The `(` of the paren that one of its four tokens belongs to. */
  function Head(s: seq<Op>, i: nat): int
    requires i < |s|
  {
    var o := s[i];
    match o.kind
    case IRep1 => i
    case Inner1 => o.mate
    case Inner2 => if 0 <= o.inner < |s| then s[o.inner].mate else -1
    case IRep2 => o.inner
    case _ => -1
  }

  /** The four tokens of a paren with a brace. */
  lemma FourTokens(s: seq<Op>, p: nat)
    requires Linked(s) && p < |s| && s[p].kind == IRep1
    ensures var i1, r := s[p].mate, s[p].inner;
            && p < i1 < r < |s| && s[i1].kind == Inner1 && s[r].kind == IRep2
            && i1 < s[i1].inner < r && s[s[i1].inner].kind == Inner2 && s[s[i1].inner].inner == i1 && s[s[i1].inner].mate == r
            && s[i1].mate == p && s[r].inner == p && s[r].mate == s[i1].inner
            && s[i1].count == s[r].count == s[s[i1].inner].count == s[p].count >= 0
  {
    assert LinkedAt(s, p) && LinkedAt(s, s[p].mate) && LinkedAt(s, s[p].inner) && LinkedAt(s, s[s[p].mate].inner);
  }

  lemma HeadOf(s: seq<Op>, i: nat)
    requires Linked(s) && i < |s| && Braced(s[i].kind)
    ensures 0 <= Head(s, i) <= i && s[Head(s, i)].kind == IRep1 && s[i].count == s[Head(s, i)].count
    ensures var p := Head(s, i); i == p || i == s[p].mate || i == s[p].inner || (0 <= s[p].mate < |s| && i == s[s[p].mate].inner)
    ensures 0 <= s[i].inner < |s| && Head(s, s[i].inner) == Head(s, i) && Braced(s[s[i].inner].kind)
    ensures 0 <= s[i].mate < |s| && Head(s, s[i].mate) == Head(s, i) && Braced(s[s[i].mate].kind)
  {
    assert LinkedAt(s, i);
    if s[i].kind == Inner2 { assert LinkedAt(s, s[i].inner); }
    FourTokens(s, Head(s, i));
  }

  ghost predicate RawAt(s: seq<Op>, i: nat)
    requires i < |s|
  {
    && s[i].mate == -1 && s[i].inner == -1
    && s[i].kind != IRep1 && s[i].kind != IRep2
    && (s[i].kind == Rep2 ==> 0 <= s[i].count <= MAXCYCLES)
    && (s[i].kind == Done <==> i == |s| - 1)
  }

  /** What the reader delivers: no links yet, only `)` carries a count, and one final `Done`. */
  ghost predicate Raw(s: seq<Op>)
  {
    |s| > 0 && forall i: nat {:trigger RawAt(s, i)} :: i < |s| ==> RawAt(s, i)
  }

  /** Instructions that take a cycle have no mate yet. */
  ghost predicate Unlooped(u: seq<Op>)
  {
    forall i :: 0 <= i < |u| && Costed(u[i].kind) ==> u[i].mate == -1
  }

  /** Every counted half runs at least once, and at most `MAXCYCLES` times. */
  ghost predicate EveryHalfRuns(s: seq<Op>)
  {
    forall k :: 0 <= k < |s| && Opens(s[k].kind) ==> 1 <= s[k].count <= MAXCYCLES
  }

  /** `Done` ends the list and occurs nowhere else. */
  ghost predicate EndsDone(s: seq<Op>)
  {
    |s| > 0 && forall i :: 0 <= i < |s| ==> (s[i].kind == Done <==> i == |s| - 1)
  }
}
