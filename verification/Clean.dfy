/** What the clean-up pass does to a linked list: halves without content are given count 0, parens
    with such a half become two plain repeats, and repeats with count 0 are cut out. */
module Clean {
  import opened Nest
  import opened Ops
  import opened Links

  /** No instruction in [lo, hi) takes a cycle. */
  ghost predicate Empty(s: seq<Op>, lo: int, hi: int)
    requires hi <= |s|
  {
    forall k :: 0 <= lo <= k < hi ==> !Costed(s[k].kind)
  }

  /** Repeat instruction `i` bounds a half without content. */
  ghost predicate Idle(s: seq<Op>, i: nat)
    requires i < |s| && 0 <= s[i].mate < |s|
  {
    if s[i].mate < i then Empty(s, s[i].mate + 1, i) else Empty(s, i + 1, s[i].mate)
  }

  /** The `(`, `{`, `}` and `)` of a paren with a brace. */
  datatype Quad = Quad(rep1: int, inner1: int, inner2: int, rep2: int)

  /** The four tokens of the braced paren that instruction `i` belongs to. */
  ghost function QuadOf(s: seq<Op>, i: nat): (q: Quad)
    requires i < |s| && Linked(s) && Braced(s[i].kind)
    ensures 0 <= q.rep1 < q.inner1 < q.inner2 < q.rep2 < |s|
    ensures s[q.rep1].kind == IRep1 && s[q.inner1].kind == Inner1
    ensures s[q.inner2].kind == Inner2 && s[q.rep2].kind == IRep2
    ensures s[q.rep1].mate == q.inner1 && s[q.inner1].mate == q.rep1
    ensures s[q.inner2].mate == q.rep2 && s[q.rep2].mate == q.inner2
    ensures s[q.rep1].inner == q.rep2 && s[q.rep2].inner == q.rep1
    ensures s[q.inner1].inner == q.inner2 && s[q.inner2].inner == q.inner1
    ensures s[q.rep1].count == s[q.inner1].count == s[q.inner2].count == s[q.rep2].count
    ensures (i == q.rep1 || i == q.inner1 || i == q.inner2 || i == q.rep2)
  {
    HeadOf(s, i);
    var p: nat := Head(s, i);
    FourTokens(s, p);
    Quad(p, s[p].mate, s[s[p].mate].inner, s[p].inner)
  }

  function PlainKind(k: Kind): Kind
  {
    if k.IRep1? || k.Inner2? then Rep1 else if k.Inner1? || k.IRep2? then Rep2 else k
  }

  /** One half of the braced paren of `i` ends before `at` and has no content. */
  ghost predicate HalfIdle(s: seq<Op>, at: nat, i: nat)
    requires i < |s| && Linked(s) && Braced(s[i].kind)
  {
    var q := QuadOf(s, i);
    (q.inner1 < at && Idle(s, q.inner1)) || (q.rep2 < at && Idle(s, q.rep2))
  }

  /** Instruction `i` once the halves that end before `at` have been judged. */
  ghost function Judged(s: seq<Op>, at: nat, i: nat): Op
    requires i < |s| && Linked(s)
  {
    var o := s[i];
    if Costed(o.kind) then o
    else
      assert LinkedAt(s, i);
      var o' := if i < at && o.mate < at && Idle(s, i) then o.(count := 0) else o;
      if Braced(o.kind) && HalfIdle(s, at, i) then o'.(kind := PlainKind(o.kind), inner := -1) else o'
  }

  /** The list once the halves that end before `at` have been judged. */
  ghost function Retyped(s: seq<Op>, at: nat): (t: seq<Op>)
    requires Linked(s)
    ensures |t| == |s|
  {
    seq(|s|, i requires 0 <= i < |s| => Judged(s, at, i))
  }

  /** `last` is the last instruction before `at` that takes a cycle, or -1. */
  ghost predicate LastCosted(s: seq<Op>, at: nat, last: int)
    requires at <= |s|
  {
    -1 <= last < at && (last >= 0 ==> Costed(s[last].kind)) && Empty(s, last + 1, at)
  }

  lemma IdleByLast(s: seq<Op>, at: nat, last: int)
    requires Linked(s) && at < |s| && Closes(s[at].kind) && LastCosted(s, at, last)
    ensures 0 <= s[at].mate < at && s[s[at].mate].mate == at
    ensures last < s[at].mate <==> Idle(s, at)
    ensures Idle(s, s[at].mate) == Idle(s, at)
  {
    assert LinkedAt(s, at) && LinkedAt(s, s[at].mate);
  }

  /** The half of instruction `i` ends at `at`. */
  predicate HalfEndsAt(s: seq<Op>, at: nat, i: nat)
    requires i < |s|
  {
    !Costed(s[i].kind) && (if i < s[i].mate then s[i].mate else i) == at
  }

  /** One of the halves of the braced paren of `i` ends at `at`. */
  ghost predicate ParenHalfEndsAt(s: seq<Op>, at: nat, i: nat)
    requires i < |s| && Linked(s)
  {
    Braced(s[i].kind) && (QuadOf(s, i).inner1 == at || QuadOf(s, i).rep2 == at)
  }

  /** Judging position `at` affects only the paren with a half that ends there. */
  lemma JudgedApart(s: seq<Op>, at: nat, i: nat)
    requires Linked(s) && at < |s| && i < |s|
    requires !HalfEndsAt(s, at, i) && !ParenHalfEndsAt(s, at, i)
    ensures Judged(s, at + 1, i) == Judged(s, at, i)
  {
  }

  lemma NoHalfEnds(s: seq<Op>, at: nat, i: nat)
    requires Linked(s) && at < |s| && i < |s| && !Closes(s[at].kind)
    ensures !HalfEndsAt(s, at, i) && !ParenHalfEndsAt(s, at, i)
  {
    assert LinkedAt(s, i);
    if !Costed(s[i].kind) {
      assert LinkedAt(s, s[i].mate);
    }
  }

  predicate InQuad(q: Quad, i: int)
  {
    i == q.rep1 || i == q.inner1 || i == q.inner2 || i == q.rep2
  }

  /** A braced paren looks the same from each of its four tokens. */
  lemma SameQuad(s: seq<Op>, i: nat, j: nat)
    requires Linked(s) && i < |s| && j < |s| && Braced(s[i].kind) && Braced(s[j].kind)
    ensures InQuad(QuadOf(s, i), j) <==> QuadOf(s, j) == QuadOf(s, i)
  {
    assert LinkedAt(s, j);
  }

  /** The paren that ends at `at` has no content and no brace. */
  ghost function PlainEmptied(t: seq<Op>, at: nat): seq<Op>
    requires at < |t| && 0 <= t[at].mate < |t|
  {
    t[at := t[at].(count := 0)][t[at].mate := t[t[at].mate].(count := 0)]
  }

  /** `({a}b)*N` becomes `()*0 a (b)*N`. */
  ghost function FirstEmptied(t: seq<Op>, q: Quad): seq<Op>
    requires 0 <= q.rep1 < q.inner1 < q.inner2 < q.rep2 < |t|
  {
    t[q.rep1 := t[q.rep1].(kind := Rep1, count := 0, inner := -1)]
     [q.inner1 := t[q.inner1].(kind := Rep2, count := 0, inner := -1)]
     [q.inner2 := t[q.inner2].(kind := Rep1, inner := -1)]
     [q.rep2 := t[q.rep2].(kind := Rep2, inner := -1)]
  }

  /** `(a{b})*N` becomes `(a)*N b ()*0`. */
  ghost function SecondEmptied(t: seq<Op>, q: Quad): seq<Op>
    requires 0 <= q.rep1 < q.inner1 < q.inner2 < q.rep2 < |t|
  {
    t[q.rep1 := t[q.rep1].(kind := Rep1, inner := -1)]
     [q.inner1 := t[q.inner1].(kind := Rep2, inner := -1)]
     [q.inner2 := t[q.inner2].(kind := Rep1, count := 0, inner := -1)]
     [q.rep2 := t[q.rep2].(kind := Rep2, count := 0, inner := -1)]
  }

  lemma JudgePlain(s: seq<Op>, at: nat)
    requires Linked(s) && at < |s| && !Closes(s[at].kind)
    ensures Retyped(s, at + 1) == Retyped(s, at)
  {
    forall i: nat | i < |s|
      ensures Judged(s, at + 1, i) == Judged(s, at, i)
    {
      NoHalfEnds(s, at, i);
      JudgedApart(s, at, i);
    }
  }

  lemma JudgeClose(s: seq<Op>, at: nat)
    requires Linked(s) && at < |s| && s[at].kind == Rep2
    ensures 0 <= s[at].mate < at && Retyped(s, at)[at] == s[at]
    ensures Retyped(s, at + 1) == if Idle(s, at) then PlainEmptied(Retyped(s, at), at) else Retyped(s, at)
  {
    assert LinkedAt(s, at) && LinkedAt(s, s[at].mate);
    var p := s[at].mate;
    forall i: nat | i < |s| && i != at && i != p
      ensures Judged(s, at + 1, i) == Judged(s, at, i)
    {
      assert LinkedAt(s, i);
      JudgedApart(s, at, i);
    }
  }

  /** Only the tokens of the paren with a half that ends at `at` are judged there. */
  lemma JudgeOthers(s: seq<Op>, at: nat)
    requires Linked(s) && at < |s| && (s[at].kind.Inner1? || s[at].kind.IRep2?)
    ensures forall i :: 0 <= i < |s| && !InQuad(QuadOf(s, at), i) ==> Retyped(s, at + 1)[i] == Retyped(s, at)[i]
    ensures forall i :: InQuad(QuadOf(s, at), i) ==> QuadOf(s, i) == QuadOf(s, at)
  {
    var q, t, t' := QuadOf(s, at), Retyped(s, at), Retyped(s, at + 1);
    assert LinkedAt(s, at);
    forall i: nat | i < |s| && !InQuad(q, i)
      ensures t'[i] == t[i]
    {
      assert LinkedAt(s, i);
      if Braced(s[i].kind) { SameQuad(s, i, at); }
      JudgedApart(s, at, i);
    }
    forall i: nat | InQuad(q, i)
      ensures QuadOf(s, i) == q
    {
      SameQuad(s, at, i);
    }
  }

  lemma JudgeInner(s: seq<Op>, at: nat)
    requires Linked(s) && at < |s| && s[at].kind == Inner1
    ensures QuadOf(s, at).inner1 == at
    ensures forall i :: InQuad(QuadOf(s, at), i) ==> Retyped(s, at)[i] == s[i]
    ensures Retyped(s, at + 1) == if Idle(s, at) then FirstEmptied(Retyped(s, at), QuadOf(s, at)) else Retyped(s, at)
  {
    JudgeOthers(s, at);
    var q := QuadOf(s, at);
    assert LinkedAt(s, at) && LinkedAt(s, q.rep1) && LinkedAt(s, q.inner2) && LinkedAt(s, q.rep2);
  }

  lemma JudgeAfterFirst(s: seq<Op>, at: nat)
    requires Linked(s) && at < |s| && s[at].kind == IRep2 && Idle(s, QuadOf(s, at).inner1)
    ensures Retyped(s, at)[at].kind == Rep2 && Retyped(s, at)[at].mate == s[at].mate
    ensures 0 <= s[at].mate < |s|
    ensures Retyped(s, at + 1) == if Idle(s, at) then PlainEmptied(Retyped(s, at), at) else Retyped(s, at)
  {
    JudgeOthers(s, at);
    var q := QuadOf(s, at);
    assert LinkedAt(s, q.rep1) && LinkedAt(s, q.inner1) && LinkedAt(s, q.inner2);
  }

  lemma JudgeSecond(s: seq<Op>, at: nat)
    requires Linked(s) && at < |s| && s[at].kind == IRep2 && !Idle(s, QuadOf(s, at).inner1)
    ensures QuadOf(s, at).rep2 == at && s[at].mate == QuadOf(s, at).inner2
    ensures forall i :: InQuad(QuadOf(s, at), i) ==> Retyped(s, at)[i] == s[i]
    ensures Retyped(s, at + 1) == if Idle(s, at) then SecondEmptied(Retyped(s, at), QuadOf(s, at)) else Retyped(s, at)
  {
    JudgeOthers(s, at);
    var q := QuadOf(s, at);
    assert LinkedAt(s, q.rep1) && LinkedAt(s, q.inner1) && LinkedAt(s, q.inner2) && LinkedAt(s, q.rep2);
  }

  lemma NothingRetyped(s: seq<Op>)
    requires Linked(s)
    ensures Retyped(s, 0) == s
  {
  }
}
