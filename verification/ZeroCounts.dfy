/** When the engines and the reference interpreter run the same program: counts of 0. */
module ZeroCounts {
  import opened Nest
  import opened Ops
  import opened Links
  import opened Loops
  import opened Expansion
  import opened Trace
  import opened CleanMeaning
  import opened Skipping
  import opened Counters
  import opened EgoRun

  // Different programs can be told apart.

  predicate NoDone(p: seq<Kind>)
  {
    forall i :: 0 <= i < |p| ==> p[i] != Done
  }

  /** With these answers no bracket jumps. */
  predicate Straight(p: seq<Kind>, pc: nat, answers: seq<bool>)
  {
    pc + |answers| <= |p| + 1 && forall j: nat {:trigger answers[j]} :: j < |answers| ==> (answers[j] <==> KindAt(p, pc + j) != Loop1)
  }

  lemma {:induction false} StraightTrace(p: seq<Kind>, pc: nat, answers: seq<bool>, i: nat)
    requires Straight(p, pc, answers) && i < |answers|
    ensures |FlatTrace(p, pc, answers)| == |answers| && FlatTrace(p, pc, answers)[i] == KindAt(p, pc + i)
    decreases |answers|
  {
    var rest := answers[1..];
    if |answers| > 1 {
      assert answers[0] <==> KindAt(p, pc) != Loop1;
      assert Straight(p, pc + 1, rest) by {
        forall j: nat {:trigger rest[j]} | j < |rest|
          ensures rest[j] <==> KindAt(p, pc + 1 + j) != Loop1
        {
          assert rest[j] == answers[j + 1];
        }
      }
      StraightTrace(p, pc + 1, rest, if i == 0 then 0 else i - 1);
    }
  }

  lemma FirstDifference(p: seq<Kind>, q: seq<Kind>) returns (i: nat)
    requires NoDone(p) && NoDone(q) && p != q
    ensures i <= |p| && i <= |q| && p[..i] == q[..i] && KindAt(p, i) != KindAt(q, i)
  {
    i := 0;
    while i < |p| && i < |q| && p[i] == q[i]
      invariant i <= |p| && i <= |q| && p[..i] == q[..i]
      decreases |p| - i
    {
      i := i + 1;
    }
    assert p == p[..|p|] && q == q[..|q|];
  }

  /** Up to the first difference nothing jumps, and there the traces differ. */
  lemma TracesDiffer(p: seq<Kind>, q: seq<Kind>) returns (answers: seq<bool>)
    requires NoDone(p) && NoDone(q) && p != q
    ensures FlatTrace(p, 0, answers) != FlatTrace(q, 0, answers)
  {
    var i := FirstDifference(p, q);
    answers := seq(i + 1, j requires 0 <= j => KindAt(p, j) != Loop1 && KindAt(q, j) != Loop1);
    var both := answers[..i];
    assert answers == both + [answers[i]];
    forall j: nat | j < i
      ensures KindAt(p, j) == KindAt(q, j)
    {
      assert p[..i][j] == q[..i][j];
    }
    TraceAt(p, answers, i);
    TraceAt(q, answers, i);
  }

  /** The last answer is not looked at any more. */
  lemma TraceAt(p: seq<Kind>, answers: seq<bool>, i: nat)
    requires |answers| == i + 1 && i <= |p| && forall j: nat {:trigger answers[j]} :: j < i ==> (answers[j] <==> KindAt(p, j) != Loop1)
    ensures |FlatTrace(p, 0, answers)| == i + 1 && FlatTrace(p, 0, answers)[i] == KindAt(p, i)
  {
    LastAnswer(p, 0, answers, answers[i := KindAt(p, i) != Loop1]);
    StraightTrace(p, 0, answers[i := KindAt(p, i) != Loop1], i);
  }

  lemma {:induction false} LastAnswer(p: seq<Kind>, pc: nat, xs: seq<bool>, ys: seq<bool>)
    requires |xs| == |ys| > 0 && xs[..|xs| - 1] == ys[..|ys| - 1]
    ensures FlatTrace(p, pc, xs) == FlatTrace(p, pc, ys)
    decreases |xs|
  {
    if |xs| > 1 {
      assert xs[0] == xs[..|xs| - 1][0] == ys[..|ys| - 1][0] == ys[0];
      assert xs[1..][..|xs| - 2] == xs[..|xs| - 1][1..] && ys[1..][..|ys| - 2] == ys[..|ys| - 1][1..];
      LastAnswer(p, NextPc(p, pc, xs[0]), xs[1..], ys[1..]);
    }
  }

  lemma ProgramNoDone(s: seq<Op>)
    requires Linked(s) && EndsDone(s)
    ensures NoDone(Program(s))
  {
    var n: nat := |s| - 1;
    WholeClosed(s);
    var cs := Copies(s, 0, n, []);
    CopiesInside(s, 0, n, []);
    CopiesExpand(s, 0, n, []);
    forall i | 0 <= i < |cs|
      ensures Kinds(s, cs)[i] != Done
    {
      assert CopyIn(s, 0, n, cs[i]);
    }
  }

  /** The interpreter executes what the engines execute, for all answers, exactly if its program is the
      program that the list stands for. */
  lemma AgreeIfSame(s: seq<Op>, iter: seq<int>)
    requires Accepted(s) && |iter| == |s|
    ensures (forall answers :: EgoEmits(s, Ego(0, iter), answers, FlatTrace(Program(s), 0, answers)))
        <==> EgoProgram(s) == Program(s)
  {
    if EgoProgram(s) == Program(s) {
      forall answers
        ensures EgoEmits(s, Ego(0, iter), answers, FlatTrace(Program(s), 0, answers))
      {
        EgoRunsProgram(s, iter, answers);
      }
    } else {
      AsRunFormed(s);
      ProgramNoDone(s);
      ProgramNoDone(AsRun(s));
      var answers := TracesDiffer(EgoProgram(s), Program(s));
      EgoRunsProgram(s, iter, answers);
      if EgoEmits(s, Ego(0, iter), answers, FlatTrace(Program(s), 0, answers)) {
        EgoEmitsOnce(s, Ego(0, iter), answers, FlatTrace(EgoProgram(s), 0, answers), FlatTrace(Program(s), 0, answers));
      }
    }
  }

  // When it is the same program.

  /** The half at `h` is around position `k`. */
  ghost predicate Around(s: seq<Op>, h: nat, k: nat)
  {
    h < k && h < |s| && Opens(s[h].kind) && k < s[h].mate
  }

  /** No half around `k` that begins at `lo` or later has count 0. */
  ghost predicate RunsFrom(s: seq<Op>, lo: nat, k: nat)
  {
    forall h: nat {:trigger Around(s, h, k)} :: lo <= h && Around(s, h, k) ==> s[h].count > 0
  }

  /** An instruction that takes a cycle, and that the engines execute, in a paren that the interpreter skips. */
  ghost predicate LostAt(s: seq<Op>, lo: nat, hi: nat, k: nat)
  {
    lo <= k < hi <= |s| && Costed(s[k].kind) && RunsFrom(s, lo, k)
    && exists z: nat {:trigger Zero(s, z)} :: lo <= z && Zero(s, z) && Within(s, z, k)
  }

  /** No skipped paren holds the brace of another paren. */
  ghost predicate Unmixed(s: seq<Op>)
  {
    forall z: nat {:trigger Zero(s, z)} :: Zero(s, z) ==> OwnBrace(s, z)
  }

  ghost predicate OwnBrace(s: seq<Op>, z: nat)
    requires z < |s|
  {
    && 0 <= s[z].mate < |s| && 0 <= s[s[z].mate].inner <= |s|
    && Closed(Halves(s), s[z].mate + 1, s[s[z].mate].inner)
  }

  lemma {:induction false} RepeatShorter<T>(x: seq<T>, y: seq<T>, n: int)
    requires |x| <= |y|
    ensures |Repeat(x, n)| <= |Repeat(y, n)|
    ensures |x| < |y| && n > 0 ==> |Repeat(x, n)| < |Repeat(y, n)|
    decreases if n < 0 then 0 else n
  {
    if n > 0 { RepeatShorter(x, y, n - 1); }
  }

  /** No half of a closed segment is around a position after it. */
  lemma RunsPast(s: seq<Op>, lo: nat, end: nat, k: nat)
    requires Linked(s) && end <= k < |s| && Closed(Halves(s), lo, end) && RunsFrom(s, end, k)
    ensures RunsFrom(s, lo, k)
  {
    forall h: nat {:trigger Around(s, h, k)} | lo <= h && Around(s, h, k)
      ensures s[h].count > 0
    {
      assert lo <= h < end ==> Inside(Halves(s), lo, end, h);
    }
  }

  lemma RunsInside(s: seq<Op>, lo: nat, k: nat)
    requires lo < |s| && Opens(s[lo].kind) && s[lo].count > 0 && RunsFrom(s, lo + 1, k)
    ensures RunsFrom(s, lo, k)
  {
  }

  lemma LeadClosed(s: seq<Op>, lo: nat)
    requires Linked(s) && lo < |s| && !Closes(s[lo].kind)
    ensures lo < After(s, lo) <= |s| && Closed(Halves(s), lo, After(s, lo))
  {
    if Opens(s[lo].kind) {
      HalfSegment(s, lo);
    } else {
      assert LinkedAt(s, lo) && Costed(s[lo].kind);
    }
  }

  /** A segment in which nothing is executed expands to nothing. */
  lemma {:induction false} NothingRuns(s: seq<Op>, lo: nat, hi: nat)
    requires Linked(s) && lo <= hi <= |s| && Closed(Halves(s), lo, hi) && Idle(s, lo, hi)
    ensures Expand(s, lo, hi) == []
    decreases hi - lo, 1
  {
    if lo < hi {
      LeadExpand(s, lo, hi);
      LeadIdle(s, lo, hi);
      RestIdle(s, lo, hi);
      NothingRuns(s, After(s, lo), hi);
    }
  }

  ghost predicate Idle(s: seq<Op>, lo: nat, hi: nat)
    requires hi <= |s|
  {
    forall k: nat {:trigger RunsFrom(s, lo, k)} :: lo <= k < hi && Costed(s[k].kind) ==> !RunsFrom(s, lo, k)
  }

  lemma RestIdle(s: seq<Op>, lo: nat, hi: nat)
    requires Linked(s) && lo < hi <= |s| && !Closes(s[lo].kind) && Idle(s, lo, hi)
    ensures 0 <= After(s, lo) && Idle(s, After(s, lo), hi)
  {
    LeadClosed(s, lo);
    var end: nat := After(s, lo);
    forall k: nat {:trigger RunsFrom(s, end, k)} | end <= k < hi && Costed(s[k].kind)
      ensures !RunsFrom(s, end, k)
    {
      if RunsFrom(s, end, k) { RunsPast(s, lo, end, k); }
    }
  }

  lemma {:induction false} LeadIdle(s: seq<Op>, lo: nat, hi: nat)
    requires Linked(s) && lo < hi <= |s| && lo < After(s, lo) <= hi && !Closes(s[lo].kind) && Idle(s, lo, hi)
    ensures Leading(s, lo) == []
    decreases hi - lo, 0
  {
    assert RunsFrom(s, lo, lo);
    HalfInside(s, lo);
    var m: nat := s[lo].mate;
    if s[lo].count > 0 {
      InsideIdle(s, lo, hi);
      NothingRuns(s, lo + 1, m);
    }
    RepeatNothing<Kind>(s[lo].count);
  }

  lemma InsideIdle(s: seq<Op>, lo: nat, hi: nat)
    requires lo < hi <= |s| && Opens(s[lo].kind) && s[lo].count > 0 && 0 <= s[lo].mate < hi && Idle(s, lo, hi)
    ensures Idle(s, lo + 1, s[lo].mate)
  {
    forall k: nat {:trigger RunsFrom(s, lo + 1, k)} | lo + 1 <= k < s[lo].mate && Costed(s[k].kind)
      ensures !RunsFrom(s, lo + 1, k)
    {
      if RunsFrom(s, lo + 1, k) { RunsInside(s, lo, k); }
    }
  }

  /** A segment in which something is executed does not expand to nothing. */
  lemma {:induction false} SomethingRuns(s: seq<Op>, lo: nat, hi: nat, k: nat)
    requires Linked(s) && lo <= k < hi <= |s| && Closed(Halves(s), lo, hi) && Costed(s[k].kind) && RunsFrom(s, lo, k)
    ensures Expand(s, lo, hi) != []
    decreases hi - lo, 1
  {
    LeadExpand(s, lo, hi);
    if k < After(s, lo) {
      LeadRuns(s, lo, k);
    } else {
      SomethingRuns(s, After(s, lo), hi, k);
    }
  }

  lemma {:induction false} LeadRuns(s: seq<Op>, lo: nat, k: nat)
    requires Linked(s) && lo < |s| && lo <= k < After(s, lo) && k < |s| && !Closes(s[lo].kind) && Costed(s[k].kind) && RunsFrom(s, lo, k)
    ensures Leading(s, lo) != []
    decreases After(s, lo) - lo, 0
  {
    if Opens(s[lo].kind) {
      HalfInside(s, lo);
      assert Around(s, lo, k);
      SomethingRuns(s, lo + 1, s[lo].mate, k);
      RepeatShorter([], Expand(s, lo + 1, s[lo].mate), s[lo].count);
    }
  }

  // Both expansions, segment by segment.

  ghost function Size(s: seq<Op>, lo: nat, hi: nat): nat
    requires Linked(s) && lo <= hi <= |s| && Closed(Halves(s), lo, hi)
  {
    |Expand(s, lo, hi)|
  }

  ghost predicate BothClosed(s: seq<Op>, t: seq<Op>, lo: nat, hi: nat)
  {
    && RunsAs(s, t) && Unmixed(s) && Surface(s, lo)
    && lo <= hi <= |s| && Closed(Halves(s), lo, hi) && Closed(Halves(t), lo, hi)
  }

  /** Outside of skipped parens, only these are cut. */
  lemma CutIsZero(s: seq<Op>, p: nat)
    requires Linked(s) && Unmixed(s) && Surface(s, p) && Cut(s, p)
    ensures Zero(s, p)
  {
    var z: nat :| Zero(s, z) && Within(s, z, s[p].mate);
    FourTokens(s, p);
    FourTokens(s, z);
    if p < z {
      InBrace(s, z, p);
      LeavesBrace(s, p, s[z].mate + 1, s[s[z].mate].inner);
    }
  }

  lemma LeavesBrace(s: seq<Op>, p: nat, lo: nat, hi: nat)
    requires Linked(s) && p < lo <= hi <= |s| && s[p].kind == IRep1 && lo <= s[p].mate < hi
    ensures !Closed(Halves(s), lo, hi)
  {
    FourTokens(s, p);
    assert !Inside(Halves(s), lo, hi, s[p].mate);
  }

  /** The first step into a segment: both go on alike, or a skipped paren begins. */
  lemma BothHead(s: seq<Op>, t: seq<Op>, lo: nat, hi: nat)
    requires BothClosed(s, t, lo, hi) && lo < hi
    ensures !Closes(s[lo].kind) && !Closes(t[lo].kind)
    ensures t[lo] == s[lo] || (Zero(s, lo) && t[lo].kind == Rep1 && t[lo].mate == s[lo].inner && t[lo].count == 0)
    ensures s[lo].kind == IRep1 && t[lo] == s[lo] ==> !Zero(s, lo)
  {
    ExpandHead(s, lo, hi);
    ExpandHead(t, lo, hi);
    RunOpAt(s, lo);
    if Opens(s[lo].kind) {
      SurfaceHalf(s, t, lo);
      if s[lo].kind == IRep1 && Cut(s, lo) { CutIsZero(s, lo); }
    }
  }

  /** The inside of a half that runs. */
  lemma BothInside(s: seq<Op>, t: seq<Op>, lo: nat, hi: nat)
    requires BothClosed(s, t, lo, hi) && lo < hi && t[lo] == s[lo] && Opens(s[lo].kind) && s[lo].count > 0
    ensures lo < s[lo].mate < hi && BothClosed(s, t, lo + 1, s[lo].mate)
  {
    ExpandHead(s, lo, hi);
    ExpandHead(t, lo, hi);
    SurfaceInside(s, t, lo);
  }

  /** The rest after a skipped paren. */
  lemma SkipRest(s: seq<Op>, t: seq<Op>, z: nat, hi: nat)
    requires BothClosed(s, t, z, hi) && z < hi && Zero(s, z)
    requires t[z].kind == Rep1 && t[z].mate == s[z].inner && t[z].count == 0
    ensures z < s[z].inner < hi && Closed(Halves(t), s[z].inner + 1, hi) && Surface(s, s[z].inner + 1)
    ensures Expand(t, z, hi) == Expand(t, s[z].inner + 1, hi)
  {
    ExpandHead(t, z, hi);
    SurfaceNext(s, t, z);
  }

  /** A skipped paren stands for what is inside its brace. */
  lemma SkipBrace(s: seq<Op>, z: nat, hi: nat)
    requires Linked(s) && Zero(s, z) && OwnBrace(s, z) && s[z].inner < hi <= |s| && Closed(Halves(s), z, hi)
    ensures z < s[z].mate < s[s[z].mate].inner < s[z].inner && Closed(Halves(s), s[z].inner + 1, hi)
    ensures Expand(s, z, hi) == Expand(s, s[z].mate + 1, s[s[z].mate].inner) + Expand(s, s[z].inner + 1, hi)
  {
    FourTokens(s, z);
    var i1: nat := s[z].mate;
    var i2: nat, r: nat := s[i1].inner, s[z].inner;
    BracedExpand(s, z, i1, i2, r);
    ClosedRight(Halves(s), z, r + 1, hi);
    ExpandAppend(s, z, r + 1, hi);
  }

  lemma BothSkip(s: seq<Op>, t: seq<Op>, z: nat, hi: nat)
    requires BothClosed(s, t, z, hi) && z < hi && Zero(s, z)
    requires t[z].kind == Rep1 && t[z].mate == s[z].inner && t[z].count == 0
    ensures z < s[z].mate < s[s[z].mate].inner < s[z].inner < hi && OwnBrace(s, z)
    ensures BothClosed(s, t, s[z].inner + 1, hi)
    ensures Expand(s, z, hi) == Expand(s, s[z].mate + 1, s[s[z].mate].inner) + Expand(s, s[z].inner + 1, hi)
    ensures Expand(t, z, hi) == Expand(t, s[z].inner + 1, hi)
  {
    SkipRest(s, t, z, hi);
    assert OwnBrace(s, z);
    SkipBrace(s, z, hi);
  }

  lemma BothLead(s: seq<Op>, t: seq<Op>, lo: nat, hi: nat)
    requires BothClosed(s, t, lo, hi) && lo < hi && t[lo] == s[lo]
    ensures !Closes(s[lo].kind) && lo < After(t, lo) <= hi && BothClosed(s, t, After(t, lo), hi)
    ensures Expand(s, lo, hi) == Leading(s, lo) + Expand(s, After(t, lo), hi)
    ensures Expand(t, lo, hi) == Leading(t, lo) + Expand(t, After(t, lo), hi)
  {
    LeadExpand(s, lo, hi);
    LeadExpand(t, lo, hi);
    SurfaceNext(s, t, lo);
  }

  lemma SkipBounds(s: seq<Op>, t: seq<Op>, z: nat, hi: nat) returns (rest: nat)
    requires BothClosed(s, t, z, hi) && z < hi && Zero(s, z)
    requires t[z].kind == Rep1 && t[z].mate == s[z].inner && t[z].count == 0
    ensures z < s[z].inner < hi && rest == s[z].inner + 1 == After(t, z) && BothClosed(s, t, rest, hi)
    ensures Size(t, z, hi) == Size(t, rest, hi) && Size(s, z, hi) >= Size(s, rest, hi)
  {
    BothSkip(s, t, z, hi);
    rest := s[z].inner + 1;
  }

  /** What the interpreter runs is never longer. */
  lemma {:induction false} NeverLonger(s: seq<Op>, t: seq<Op>, lo: nat, hi: nat)
    requires BothClosed(s, t, lo, hi)
    ensures Size(t, lo, hi) <= Size(s, lo, hi)
    decreases hi - lo, 1
  {
    if lo < hi {
      BothHead(s, t, lo, hi);
      if t[lo] == s[lo] {
        BothLead(s, t, lo, hi);
        LeadingNeverLonger(s, t, lo, hi);
        NeverLonger(s, t, After(t, lo), hi);
      } else {
        var rest := SkipBounds(s, t, lo, hi);
        NeverLonger(s, t, rest, hi);
      }
    }
  }

  lemma {:induction false} LeadingNeverLonger(s: seq<Op>, t: seq<Op>, lo: nat, hi: nat)
    requires BothClosed(s, t, lo, hi) && lo < hi && t[lo] == s[lo] && !Closes(s[lo].kind)
    ensures |Leading(t, lo)| <= |Leading(s, lo)|
    decreases hi - lo, 0
  {
    if Opens(s[lo].kind) && s[lo].count > 0 {
      BothInside(s, t, lo, hi);
      NeverLonger(s, t, lo + 1, s[lo].mate);
      RepeatShorter(Expand(t, lo + 1, s[lo].mate), Expand(s, lo + 1, s[lo].mate), s[lo].count);
    }
  }

  // If nothing is lost, nothing is missing.

  /** What is lost in the rest of a segment is lost in the segment. */
  lemma LostInRest(s: seq<Op>, lo: nat, end: nat, hi: nat, k: nat)
    requires Linked(s) && lo <= end <= |s| && LostAt(s, end, hi, k) && Closed(Halves(s), lo, end)
    ensures LostAt(s, lo, hi, k)
  {
    RunsPast(s, lo, end, k);
  }

  lemma LostInHalf(s: seq<Op>, lo: nat, hi: nat, k: nat)
    requires Linked(s) && lo < hi <= |s| && Opens(s[lo].kind) && s[lo].count > 0 && 0 <= s[lo].mate < hi
    requires LostAt(s, lo + 1, s[lo].mate, k)
    ensures LostAt(s, lo, hi, k)
  {
    RunsInside(s, lo, k);
  }

  lemma BehindNotLost(s: seq<Op>, lo: nat, hi: nat)
    requires Linked(s) && lo < |s| && !Closes(s[lo].kind) && NoneLost(s, lo, hi)
    ensures 0 <= After(s, lo) && NoneLost(s, After(s, lo), hi)
  {
    LeadClosed(s, lo);
    RestNotLost(s, lo, After(s, lo), hi);
  }

  ghost predicate NoneLost(s: seq<Op>, lo: nat, hi: nat)
  {
    forall k: nat {:trigger LostAt(s, lo, hi, k)} :: !LostAt(s, lo, hi, k)
  }

  lemma {:induction false} NothingLost(s: seq<Op>, t: seq<Op>, lo: nat, hi: nat)
    requires BothClosed(s, t, lo, hi) && NoneLost(s, lo, hi)
    ensures Expand(t, lo, hi) == Expand(s, lo, hi)
    decreases hi - lo, 2
  {
    if lo < hi {
      BothHead(s, t, lo, hi);
      if t[lo] == s[lo] { AlikeNotLost(s, t, lo, hi); } else { SkipNotLost(s, t, lo, hi); }
    }
  }

  lemma {:induction false} AlikeNotLost(s: seq<Op>, t: seq<Op>, lo: nat, hi: nat)
    requires BothClosed(s, t, lo, hi) && NoneLost(s, lo, hi) && lo < hi && t[lo] == s[lo] && !Closes(s[lo].kind)
    ensures Expand(t, lo, hi) == Expand(s, lo, hi)
    decreases hi - lo, 1
  {
    BothLead(s, t, lo, hi);
    LeadingNotLost(s, t, lo, hi);
    BehindNotLost(s, lo, hi);
    NothingLost(s, t, After(t, lo), hi);
  }

  lemma {:induction false} SkipNotLost(s: seq<Op>, t: seq<Op>, z: nat, hi: nat)
    requires BothClosed(s, t, z, hi) && NoneLost(s, z, hi) && z < hi && Zero(s, z)
    requires t[z].kind == Rep1 && t[z].mate == s[z].inner && t[z].count == 0
    ensures Expand(t, z, hi) == Expand(s, z, hi)
    decreases hi - z, 1
  {
    SkipNothing(s, t, z, hi);
    PastNotLost(s, z, hi);
    NothingLost(s, t, s[z].inner + 1, hi);
  }

  lemma SkipNothing(s: seq<Op>, t: seq<Op>, z: nat, hi: nat)
    requires BothClosed(s, t, z, hi) && NoneLost(s, z, hi) && z < hi && Zero(s, z)
    requires t[z].kind == Rep1 && t[z].mate == s[z].inner && t[z].count == 0
    ensures z < s[z].inner && OwnBrace(s, z) && BothClosed(s, t, s[z].inner + 1, hi)
    ensures Expand(s, z, hi) == Expand(s, s[z].inner + 1, hi) && Expand(t, z, hi) == Expand(t, s[z].inner + 1, hi)
  {
    BothSkip(s, t, z, hi);
    BraceNotLost(s, z, hi, s[z].mate + 1, s[s[z].mate].inner);
  }

  lemma PastNotLost(s: seq<Op>, z: nat, hi: nat)
    requires Linked(s) && Zero(s, z) && OwnBrace(s, z) && NoneLost(s, z, hi)
    ensures 0 <= s[z].inner && NoneLost(s, s[z].inner + 1, hi)
  {
    ZeroClosed(s, z);
    RestNotLost(s, z, s[z].inner + 1, hi);
  }

  lemma RestNotLost(s: seq<Op>, lo: nat, end: nat, hi: nat)
    requires Linked(s) && lo <= end <= |s| && Closed(Halves(s), lo, end) && NoneLost(s, lo, hi)
    ensures NoneLost(s, end, hi)
  {
    forall k: nat {:trigger LostAt(s, end, hi, k)}
      ensures !LostAt(s, end, hi, k)
    {
      if LostAt(s, end, hi, k) { LostInRest(s, lo, end, hi, k); }
    }
  }

  lemma {:induction false} LeadingNotLost(s: seq<Op>, t: seq<Op>, lo: nat, hi: nat)
    requires BothClosed(s, t, lo, hi) && lo < hi && t[lo] == s[lo] && !Closes(s[lo].kind) && NoneLost(s, lo, hi)
    ensures Leading(t, lo) == Leading(s, lo)
    decreases hi - lo, 0
  {
    if Opens(s[lo].kind) && s[lo].count > 0 {
      BothInside(s, t, lo, hi);
      HalfNotLost(s, lo, hi);
      NothingLost(s, t, lo + 1, s[lo].mate);
    }
  }

  lemma HalfNotLost(s: seq<Op>, lo: nat, hi: nat)
    requires Linked(s) && lo < hi <= |s| && Opens(s[lo].kind) && s[lo].count > 0 && 0 <= s[lo].mate < hi
    requires NoneLost(s, lo, hi)
    ensures NoneLost(s, lo + 1, s[lo].mate)
  {
    var m: nat := s[lo].mate;
    forall k: nat {:trigger LostAt(s, lo + 1, m, k)}
      ensures !LostAt(s, lo + 1, m, k)
    {
      if LostAt(s, lo + 1, m, k) { LostInHalf(s, lo, hi, k); }
    }
  }

  lemma LostInBrace(s: seq<Op>, z: nat, hi: nat, k: nat)
    requires Linked(s) && Zero(s, z) && s[z].inner < hi <= |s| && z < s[z].mate < k < s[z].inner
    requires Costed(s[k].kind) && RunsFrom(s, s[z].mate + 1, k)
    ensures LostAt(s, z, hi, k)
  {
    HalfSegment(s, z);
    RunsPast(s, z, s[z].mate + 1, k);
    assert Within(s, z, k);
  }

  /** Nothing in the brace of the skipped paren is executed. */
  lemma BraceNotLost(s: seq<Op>, z: nat, hi: nat, lo: nat, end: nat)
    requires Linked(s) && Zero(s, z) && s[z].inner < hi <= |s| && z < s[z].mate < end < s[z].inner && lo == s[z].mate + 1
    requires Closed(Halves(s), lo, end) && NoneLost(s, z, hi)
    ensures Expand(s, lo, end) == []
  {
    assert Idle(s, lo, end) by {
      forall k: nat {:trigger RunsFrom(s, lo, k)} | lo <= k < end && Costed(s[k].kind)
        ensures !RunsFrom(s, lo, k)
      {
        if RunsFrom(s, lo, k) { LostInBrace(s, z, hi, k); }
      }
    }
    NothingRuns(s, lo, end);
  }

  lemma ZeroClosed(s: seq<Op>, z: nat)
    requires Linked(s) && Zero(s, z) && OwnBrace(s, z)
    ensures z < s[z].inner < |s| && Closed(Halves(s), z, s[z].inner + 1)
  {
    FourTokens(s, z);
    BracedExpand(s, z, s[z].mate, s[s[z].mate].inner, s[z].inner);
  }

  // If something is lost, something is missing.

  /** What is lost behind the first instruction is lost in the rest. */
  lemma LostBehind(s: seq<Op>, t: seq<Op>, lo: nat, end: nat, hi: nat, k: nat)
    requires BothClosed(s, t, lo, hi) && lo < hi && LostAt(s, lo, hi, k) && !Closes(t[lo].kind)
    requires lo < end == After(t, lo) && end <= k && (t[lo] == s[lo] ==> !Zero(s, lo))
    ensures LostAt(s, end, hi, k)
  {
    var z: nat :| lo <= z && Zero(s, z) && Within(s, z, k);
    ZeroBlock(s, t, z);
    RunOpAt(s, lo);
    assert LinkedAt(t, lo);
    assert Apart(Halves(t), lo, z);
    assert Opens(t[lo].kind) ==> Halves(t)[lo] == t[lo].mate;
  }

  lemma LostAhead(s: seq<Op>, lo: nat, hi: nat, k: nat)
    requires Linked(s) && LostAt(s, lo, hi, k) && lo < |s| && !Closes(s[lo].kind) && !Zero(s, lo) && k < After(s, lo)
    ensures Opens(s[lo].kind) && lo < k < s[lo].mate && s[lo].count > 0
    ensures s[lo].mate < |s| && LostAt(s, lo + 1, s[lo].mate, k)
  {
    if Opens(s[lo].kind) { HalfInside(s, lo); }
    assert lo < k;
    assert Around(s, lo, k);
  }

  lemma {:induction false} SomethingLost(s: seq<Op>, t: seq<Op>, lo: nat, hi: nat, k: nat)
    requires BothClosed(s, t, lo, hi) && LostAt(s, lo, hi, k)
    ensures Size(t, lo, hi) < Size(s, lo, hi)
    decreases hi - lo, 2
  {
    BothHead(s, t, lo, hi);
    if t[lo] == s[lo] { AlikeLost(s, t, lo, hi, k); } else { SkipLost(s, t, lo, hi, k); }
  }

  lemma {:induction false} AlikeLost(s: seq<Op>, t: seq<Op>, lo: nat, hi: nat, k: nat)
    requires BothClosed(s, t, lo, hi) && LostAt(s, lo, hi, k) && lo < hi && t[lo] == s[lo]
    requires !Closes(s[lo].kind) && !Zero(s, lo)
    ensures Size(t, lo, hi) < Size(s, lo, hi)
    decreases hi - lo, 1
  {
    BothLead(s, t, lo, hi);
    if k < After(t, lo) {
      LeadingLost(s, t, lo, hi, k);
      NeverLonger(s, t, After(t, lo), hi);
    } else {
      LostBehind(s, t, lo, After(t, lo), hi, k);
      LeadingNeverLonger(s, t, lo, hi);
      SomethingLost(s, t, After(t, lo), hi, k);
    }
  }

  lemma {:induction false} SkipLost(s: seq<Op>, t: seq<Op>, z: nat, hi: nat, k: nat)
    requires BothClosed(s, t, z, hi) && LostAt(s, z, hi, k) && z < hi && Zero(s, z)
    requires t[z].kind == Rep1 && t[z].mate == s[z].inner && t[z].count == 0
    ensures Size(t, z, hi) < Size(s, z, hi)
    decreases hi - z, 1
  {
    if k < s[z].inner {
      SkipLostInside(s, t, z, hi, k);
    } else {
      NotCloser(s, z, k);
      SkipLostLater(s, t, z, hi, k);
    }
  }

  lemma {:induction false} SkipLostLater(s: seq<Op>, t: seq<Op>, z: nat, hi: nat, k: nat)
    requires BothClosed(s, t, z, hi) && LostAt(s, z, hi, k) && z < hi && Zero(s, z) && k > s[z].inner
    requires t[z].kind == Rep1 && t[z].mate == s[z].inner && t[z].count == 0
    ensures Size(t, z, hi) < Size(s, z, hi)
    decreases hi - z, 0
  {
    var rest := SkipBounds(s, t, z, hi);
    LostBehind(s, t, z, rest, hi, k);
    SomethingLost(s, t, rest, hi, k);
  }

  lemma SkipLostInside(s: seq<Op>, t: seq<Op>, z: nat, hi: nat, k: nat)
    requires BothClosed(s, t, z, hi) && LostAt(s, z, hi, k) && z < hi && Zero(s, z) && k < s[z].inner
    requires t[z].kind == Rep1 && t[z].mate == s[z].inner && t[z].count == 0
    ensures Size(t, z, hi) < Size(s, z, hi)
  {
    var brace := SkipLengths(s, t, z, hi);
    SkippedLost(s, z, hi, k);
  }

  lemma SkipLengths(s: seq<Op>, t: seq<Op>, z: nat, hi: nat) returns (brace: seq<Kind>)
    requires BothClosed(s, t, z, hi) && z < hi && Zero(s, z)
    requires t[z].kind == Rep1 && t[z].mate == s[z].inner && t[z].count == 0
    ensures z < s[z].mate < s[s[z].mate].inner < s[z].inner && OwnBrace(s, z)
    ensures brace == Expand(s, s[z].mate + 1, s[s[z].mate].inner)
    ensures Size(t, z, hi) + |brace| <= Size(s, z, hi)
  {
    BothSkip(s, t, z, hi);
    brace := Expand(s, s[z].mate + 1, s[s[z].mate].inner);
    NeverLonger(s, t, s[z].inner + 1, hi);
  }

  lemma NotCloser(s: seq<Op>, z: nat, k: nat)
    requires Linked(s) && Zero(s, z) && k < |s| && Costed(s[k].kind)
    ensures k != s[z].inner
  {
    FourTokens(s, z);
  }

  lemma {:induction false} LeadingLost(s: seq<Op>, t: seq<Op>, lo: nat, hi: nat, k: nat)
    requires BothClosed(s, t, lo, hi) && lo < hi && t[lo] == s[lo] && !Closes(s[lo].kind) && !Zero(s, lo)
    requires LostAt(s, lo, hi, k) && k < After(t, lo)
    ensures |Leading(t, lo)| < |Leading(s, lo)|
    decreases hi - lo, 0
  {
    LostAhead(s, lo, hi, k);
    BothInside(s, t, lo, hi);
    SomethingLost(s, t, lo + 1, s[lo].mate, k);
    RepeatShorter(Expand(t, lo + 1, s[lo].mate), Expand(s, lo + 1, s[lo].mate), s[lo].count);
  }

  /** What the engines execute of a skipped paren is in its brace. */
  lemma SkippedLost(s: seq<Op>, z: nat, hi: nat, k: nat)
    requires Linked(s) && Zero(s, z) && OwnBrace(s, z) && LostAt(s, z, hi, k) && k < s[z].inner
    ensures s[z].mate < s[s[z].mate].inner && Expand(s, s[z].mate + 1, s[s[z].mate].inner) != []
  {
    FourTokens(s, z);
    var i1: nat := s[z].mate;
    var i2: nat := s[i1].inner;
    assert !Around(s, z, k) && !Around(s, i2, k);
    SomethingRuns(s, i1 + 1, i2, k);
  }

  /** Something that the engines execute lies in a paren that the interpreter skips. */
  ghost predicate Lost(s: seq<Op>)
  {
    exists k: nat {:trigger LostAt(s, 0, |s| - 1, k)} :: |s| > 0 && LostAt(s, 0, |s| - 1, k)
  }

  lemma ProgramsAgree(s: seq<Op>)
    requires Accepted(s) && Unmixed(s)
    ensures EgoProgram(s) == Program(s) <==> !Lost(s)
  {
    var t, n: nat := AsRun(s), |s| - 1;
    AsRunFormed(s);
    WholeClosed(s);
    WholeClosed(t);
    assert Surface(s, 0);
    assert BothClosed(s, t, 0, n);
    if Lost(s) {
      var k: nat :| LostAt(s, 0, n, k);
      SomethingLost(s, t, 0, n, k);
    } else {
      NothingLost(s, t, 0, n);
    }
  }

  /** For lists in which no skipped paren holds the brace of another paren: the interpreter executes the
      same instructions as the engines, for all answers, exactly if nothing is lost. */
  lemma AgreeIfNothingLost(s: seq<Op>, iter: seq<int>)
    requires Accepted(s) && Unmixed(s) && |iter| == |s|
    ensures (forall answers :: EgoEmits(s, Ego(0, iter), answers, FlatTrace(Program(s), 0, answers))) <==> !Lost(s)
  {
    AgreeIfSame(s, iter);
    ProgramsAgree(s);
  }

  /** `({-})%0`. */
  function ZeroTimes(): seq<Op>
  {
    [Op(IRep1, 1, 4, 0), Op(Inner1, 0, 3, 0), Op(Dec, -1, -1, 0), Op(Inner2, 4, 1, 0), Op(IRep2, 3, 0, 0), Op(Done, -1, -1, 0)]
  }

  lemma ZeroTimesLinked()
    ensures Linked(ZeroTimes()) && EndsDone(ZeroTimes())
  {
    var s := ZeroTimes();
    SixPaired([1, 0, -1, 4, 3, -1]);
    SixPaired([4, 3, -1, 1, 0, -1]);
    assert Halves(s) == [1, 0, -1, 4, 3, -1];
    assert Blocks(s) == [4, 3, -1, 1, 0, -1];
    forall i: nat {:trigger LinkedAt(s, i)} | i < |s|
      ensures LinkedAt(s, i)
    {
      assert i == 0 || i == 1 || i == 2 || i == 3 || i == 4 || i == 5;
    }
  }

  lemma SixPaired(ps: seq<int>)
    requires ps == [1, 0, -1, 4, 3, -1] || ps == [4, 3, -1, 1, 0, -1]
    ensures Paired(ps, 6)
  {
  }

  /** With count 0 the engines still run what is inside the brace, and the interpreter does not. */
  lemma ZeroCountDiffers(iter: seq<int>)
    requires |iter| == 6
    ensures Linked(ZeroTimes()) && EndsDone(ZeroTimes())
    ensures FlatTrace(Program(ZeroTimes()), 0, [true]) == [Dec]
    ensures EgoEmits(ZeroTimes(), Ego(0, iter), [true], [Done])
  {
    var s := ZeroTimes();
    ZeroTimesLinked();
    WholeClosed(s);
    ExpandHead(s, 0, 5);
    ExpandHead(s, 2, 5);
    ExpandHead(s, 3, 5);
    assert Program(s) == [Dec];
    var d := EgoStep(s, Ego(0, iter));
    assert EgoSteps(s, Ego(0, iter), 1) == EgoSteps(s, d, 0) == d;
    assert Executes(s, EgoSteps(s, Ego(0, iter), 1), Done);
    assert EgoEmits(s, EgoTurn(s, d, true), [true][1..], [Done][1..]);
  }
}
