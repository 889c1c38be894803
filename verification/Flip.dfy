/** The polarity flip rewrites `+` and `-` in the threaded code. */
module Flip {
  import opened Nest
  import opened Ops
  import opened Links
  import opened Loops
  import opened Nesting
  import opened Expansion
  import opened Parser
  import opened ThreadedCode
  import opened Arena
  import opened ArenaLaws

  function FlippedOp(o: Op): Op
  {
    o.(kind := Flipped(o.kind))
  }

  /** The same flip in the list of instructions. */
  function FlippedOps(s: seq<Op>): (r: seq<Op>)
    ensures |r| == |s|
  {
    seq(|s|, i requires 0 <= i < |s| => FlippedOp(s[i]))
  }

  function FlippedWord(w: Word): Word
  {
    if w.Xt? then Xt(Flipped(w.kind)) else w
  }

  function FlippedWords(code: seq<Word>): (r: seq<Word>)
    ensures |r| == |code|
  {
    seq(|code|, i requires 0 <= i < |code| => FlippedWord(code[i]))
  }

  lemma FlippedOpsTwice(s: seq<Op>)
    ensures FlippedOps(FlippedOps(s)) == s
  {
  }

  lemma FlippedPairs(s: seq<Op>)
    ensures Halves(FlippedOps(s)) == Halves(s)
    ensures Blocks(FlippedOps(s)) == Blocks(s)
    ensures Brackets(FlippedOps(s)) == Brackets(s)
  {
  }

  lemma {:induction false} FlippedDepth(s: seq<Op>, i: nat)
    requires i <= |s|
    ensures Depth(FlippedOps(s), i) == Depth(s, i)
    decreases i
  {
    if i > 0 {
      FlippedDepth(s, i - 1);
      assert Delta(Flipped(s[i - 1].kind)) == Delta(s[i - 1].kind);
    }
  }

  lemma FlippedLinkedAt(s: seq<Op>, i: nat)
    requires i < |s| && LinkedAt(s, i)
    ensures LinkedAt(FlippedOps(s), i)
  {
  }

  lemma FlippedLinked(s: seq<Op>)
    requires Linked(s)
    ensures Linked(FlippedOps(s))
  {
    var f := FlippedOps(s);
    FlippedPairs(s);
    forall i: nat {:trigger LinkedAt(f, i)} | i < |f|
      ensures LinkedAt(f, i)
    {
      assert LinkedAt(s, i);
      FlippedLinkedAt(s, i);
    }
  }

  lemma FlippedBracketing(s: seq<Op>)
    requires Bracketing(s, Brackets(s))
    ensures Bracketing(FlippedOps(s), Brackets(FlippedOps(s)))
  {
    var f := FlippedOps(s);
    FlippedPairs(s);
    forall i: nat {:trigger BracketAt(f, Brackets(f), i)} | i < |f|
      ensures BracketAt(f, Brackets(f), i)
    {
      assert BracketAt(s, Brackets(s), i);
    }
  }

  /** A flipped program is well formed. */
  lemma FlippedWellFormed(s: seq<Op>)
    requires WellFormed(s)
    ensures WellFormed(FlippedOps(s))
  {
    FlippedLinked(s);
    FlippedBracketing(s);
    var f := FlippedOps(s);
    forall i: nat {:trigger Depth(f, i)} | i <= |f|
      ensures Depth(f, i) <= MAXNEST
    {
      FlippedDepth(s, i);
    }
  }

  /** Something done to each instruction of a program on its own. */
  ghost predicate Pointwise(g: seq<Kind> -> seq<Kind>)
  {
    g([]) == [] && forall a: seq<Kind>, b: seq<Kind> {:trigger g(a + b)} :: g(a + b) == g(a) + g(b)
  }

  lemma {:induction false} PointwiseRepeat(g: seq<Kind> -> seq<Kind>, a: seq<Kind>, n: int)
    requires Pointwise(g)
    ensures g(Repeat(a, n)) == Repeat(g(a), n)
    decreases if n < 0 then 0 else n
  {
    if n > 0 {
      PointwiseRepeat(g, a, n - 1);
    }
  }

  ghost predicate FlippedAt(g: seq<Kind> -> seq<Kind>, s: seq<Op>, f: seq<Op>, i: nat)
  {
    i < |s| == |f| ==> [f[i].kind] == g([s[i].kind]) && f[i].mate == s[i].mate && f[i].count == s[i].count
                       && (Costed(s[i].kind) <==> Costed(f[i].kind))
  }

  lemma {:induction false} PointwiseExpand(g: seq<Kind> -> seq<Kind>, s: seq<Op>, f: seq<Op>, lo: nat, hi: nat)
    requires Linked(s) && Linked(f) && |f| == |s| && Halves(f) == Halves(s) && Pointwise(g)
    requires forall i: nat {:trigger FlippedAt(g, s, f, i)} :: FlippedAt(g, s, f, i)
    requires lo <= hi <= |s| && Closed(Halves(s), lo, hi)
    ensures Expand(f, lo, hi) == g(Expand(s, lo, hi))
    decreases hi - lo, 1
  {
    if lo < hi {
      LeadExpand(s, lo, hi);
      LeadExpand(f, lo, hi);
      PointwiseLead(g, s, f, lo, hi);
      PointwiseExpand(g, s, f, After(s, lo), hi);
    }
  }

  lemma {:induction false} PointwiseLead(g: seq<Kind> -> seq<Kind>, s: seq<Op>, f: seq<Op>, lo: nat, hi: nat)
    requires Linked(s) && Linked(f) && |f| == |s| && Halves(f) == Halves(s) && Pointwise(g)
    requires forall i: nat {:trigger FlippedAt(g, s, f, i)} :: FlippedAt(g, s, f, i)
    requires lo < hi <= |s| && lo < After(s, lo) <= hi && !Closes(s[lo].kind) && !Closes(f[lo].kind)
    ensures After(f, lo) == After(s, lo) && Leading(f, lo) == g(Leading(s, lo))
    decreases hi - lo, 0
  {
    assert FlippedAt(g, s, f, lo);
    if Opens(s[lo].kind) {
      HalfInside(s, lo);
      PointwiseExpand(g, s, f, lo + 1, s[lo].mate);
      PointwiseRepeat(g, Expand(s, lo + 1, s[lo].mate), s[lo].count);
    }
  }

  /** Flipping the list flips the program it stands for. */
  lemma FlippedProgram(s: seq<Op>)
    requires Linked(s) && EndsDone(s)
    ensures Linked(FlippedOps(s)) && EndsDone(FlippedOps(s))
    ensures Program(FlippedOps(s)) == FlippedCode(Program(s))
  {
    WholeClosed(s);
    FlippedLinked(s);
    FlippedPairs(s);
    var f := FlippedOps(s);
    forall a: seq<Kind>, b: seq<Kind>
      ensures FlippedCode(a + b) == FlippedCode(a) + FlippedCode(b)
    {
    }
    forall i: nat {:trigger FlippedAt(FlippedCode, s, f, i)}
      ensures FlippedAt(FlippedCode, s, f, i)
    {
    }
    PointwiseExpand(FlippedCode, s, f, 0, |s| - 1);
  }

  lemma {:induction false} FlippedOffset(s: seq<Op>, i: nat)
    requires i <= |s|
    ensures Offset(FlippedOps(s), i) == Offset(s, i)
    decreases i
  {
    if i > 0 { FlippedOffset(s, i - 1); }
  }

  lemma FlippedInstruction(s: seq<Op>, i: nat)
    requires i < |s|
    ensures Words(FlippedOps(s), i) == FlippedWords(Words(s, i))
  {
    if -1 <= s[i].mate < |s| { FlippedOffset(s, s[i].mate + 1); }
  }

  lemma FlippedWordsAppend(a: seq<Word>, b: seq<Word>)
    ensures FlippedWords(a + b) == FlippedWords(a) + FlippedWords(b)
  {
  }

  lemma {:induction false} FlippedCodeWords(s: seq<Op>, n: nat)
    requires n <= |s|
    ensures Code(FlippedOps(s), n) == FlippedWords(Code(s, n))
    decreases n
  {
    if n > 0 {
      FlippedCodeWords(s, n - 1);
      FlippedInstruction(s, n - 1);
      FlippedWordsAppend(Code(s, n - 1), Words(s, n - 1));
    }
  }

  /** Flipping the compiled code is the same as compiling the flipped list. */
  lemma FlipCommutes(s: seq<Op>)
    ensures FlippedWords(Threaded(s)) == Threaded(FlippedOps(s))
  {
    FlippedCodeWords(s, |s|);
  }

  /** The code ends with the token of `Done`, the only one. */
  lemma DoneLast(s: seq<Op>, p: nat)
    requires EndsDone(s) && p < |Threaded(s)|
    ensures Threaded(s)[p] == Xt(Done) <==> p == |Threaded(s)| - 1
  {
    var n := |s| - 1;
    assert Words(s, n) == [Xt(Done)];
    if p < Offset(s, n) { NoDoneBefore(s, n, p); }
  }

  lemma {:induction false} NoDoneBefore(s: seq<Op>, n: nat, p: nat)
    requires EndsDone(s) && n < |s| && p < |Code(s, n)|
    ensures Code(s, n)[p] != Xt(Done)
    decreases n
  {
    if p < |Code(s, n - 1)| { NoDoneBefore(s, n - 1, p); }
  }

  /** The flip that the other compilers make in the list of instructions, before they compile it. */
  method FlipList(list: OpList)
    requires list.Valid()
    modifies list.ops
    ensures list.Valid() && list.Contents() == FlippedOps(old(list.Contents()))
  {
    for at := 0 to list.len
      invariant list.Valid()
      invariant forall i :: 0 <= i < at ==> list.ops[i] == FlippedOp(old(list.ops[i]))
      invariant forall i :: at <= i < list.len ==> list.ops[i] == old(list.ops[i])
    {
      if list.ops[at].kind == Inc {
        list.ops[at] := list.ops[at].(kind := Dec);
      } else if list.ops[at].kind == Dec {
        list.ops[at] := list.ops[at].(kind := Inc);
      }
    }
  }
}
