/** The counters on the repeat stack belong, level by level, to the parens around the instruction. */
module Enclosure {
  import opened Nest
  import opened Ops
  import opened Links
  import opened Loops
  import opened Nesting
  import opened Expansion
  import opened RepMachine
  import opened Trace
  import opened Heights

  /** The parens that have a counted half open before position `i`, innermost first. */
  ghost function Enclosing(s: seq<Op>, i: nat): seq<nat>
    requires Linked(s) && i <= |s|
  {
    if i == 0 then []
    else
      var e := Enclosing(s, i - 1);
      if Opens(s[i - 1].kind) then [Paren(s, i - 1)] + e
      else if Closes(s[i - 1].kind) && e != [] then e[1..]
      else e
  }

  /** A segment that no half leaves ends inside the same parens. */
  lemma {:induction false} HalvesEnclosing(s: seq<Op>, lo: nat, hi: nat)
    requires Linked(s) && lo <= hi <= |s| && Closed(Halves(s), lo, hi)
    ensures Enclosing(s, hi) == Enclosing(s, lo)
    decreases hi - lo
  {
    if lo < hi {
      ClosedTail(Halves(s), lo, hi);
      assert LinkedAt(s, lo);
      if Costed(s[lo].kind) {
        HalvesEnclosing(s, lo + 1, hi);
      } else {
        CloserEnclosing(s, lo);
        HalvesEnclosing(s, s[lo].mate + 1, hi);
      }
    }
  }

  /** Before its closer, a half that begins at `o` is the innermost one. */
  lemma {:induction false} CloserEnclosing(s: seq<Op>, o: nat)
    requires Linked(s) && o < |s| && Opens(s[o].kind)
    ensures o < s[o].mate < |s|
    ensures Enclosing(s, o + 1) == Enclosing(s, s[o].mate) == [Paren(s, o)] + Enclosing(s, o)
    ensures Enclosing(s, s[o].mate + 1) == Enclosing(s, o)
    decreases s[o].mate - o
  {
    HalfInside(s, o);
    HalvesEnclosing(s, o + 1, s[o].mate);
  }

  lemma OpenerEnclosing(s: seq<Op>, i: nat)
    requires Linked(s) && i < |s| && Closes(s[i].kind)
    ensures 0 <= s[i].mate < i && Opens(s[s[i].mate].kind)
    ensures Enclosing(s, i) == Enclosing(s, s[i].mate + 1) == [Paren(s, s[i].mate)] + Enclosing(s, i + 1)
  {
    assert LinkedAt(s, i) && LinkedAt(s, s[i].mate);
    CloserEnclosing(s, s[i].mate);
  }

  /** A written block, from its opening to its closing token, ends where it began. */
  lemma {:induction false} BlockEnclosing(s: seq<Op>, lo: nat, m: nat)
    requires Linked(s) && Bracketing(s, Brackets(s)) && lo < m < |s|
    requires Brackets(s)[lo] == m && Closed(Brackets(s), lo + 1, m)
    ensures Enclosing(s, m + 1) == Enclosing(s, lo)
    decreases m - lo, 0
  {
    BracketsEnclosing(s, lo + 1, m);
    assert LinkedAt(s, lo) && LinkedAt(s, m) && BracketAt(s, Brackets(s), lo) && BracketAt(s, Brackets(s), m);
    var e := Enclosing(s, lo);
    if s[lo].kind == Inner1 {
      OpenerEnclosing(s, lo);
      assert Paren(s, m) == s[lo].mate == Paren(s, s[lo].mate);
      assert Enclosing(s, m) == e[1..];
    }
  }

  /** A segment that no block and no loop leaves ends inside the same parens. */
  lemma {:induction false} BracketsEnclosing(s: seq<Op>, lo: nat, hi: nat)
    requires Linked(s) && Bracketing(s, Brackets(s)) && lo <= hi <= |s| && Closed(Brackets(s), lo, hi)
    ensures Enclosing(s, hi) == Enclosing(s, lo)
    decreases hi - lo, 1
  {
    if lo < hi {
      ClosedTail(Brackets(s), lo, hi);
      assert LinkedAt(s, lo) && BracketAt(s, Brackets(s), lo);
      var m := Brackets(s)[lo];
      if m == -1 {
        BracketsEnclosing(s, lo + 1, hi);
      } else {
        BlockEnclosing(s, lo, m);
        BracketsEnclosing(s, m + 1, hi);
      }
    }
  }

  /** `[` and its `]` sit inside the same parens, even if one is in the half `(A{` and the other in the
      half `}C)`. */
  lemma LoopEnclosing(s: seq<Op>, i: nat)
    requires Linked(s) && Bracketing(s, Brackets(s)) && i < |s| && IsLoop(s[i].kind)
    ensures 0 <= s[i].mate < |s| && Enclosing(s, s[i].mate + 1) == Enclosing(s, i)
  {
    assert LinkedAt(s, i) && BracketAt(s, Brackets(s), i) && Joined(Brackets(s), |s|, i);
    var lo: nat, hi: nat := if i < s[i].mate then i else s[i].mate, if i < s[i].mate then s[i].mate else i;
    assert BracketAt(s, Brackets(s), s[i].mate) && LinkedAt(s, s[i].mate);
    InsideClosed(Brackets(s), lo);
    BracketsEnclosing(s, lo + 1, hi);
  }

  /** Level by level, the counters on the stack are in the range of their parens. */
  ghost predicate CountersFit(s: seq<Op>, c: Config)
    requires Linked(s)
  {
    c.ip < |s| && Fit(s, Enclosing(s, c.ip), c.regs)
  }

  ghost predicate Fit(s: seq<Op>, parens: seq<nat>, regs: seq<int>)
  {
    && |regs| == |parens| + 1
    && forall j :: 0 <= j < |parens| ==> parens[j] < |s| && 1 <= regs[j] <= s[parens[j]].count
  }

  /** All four tokens of a paren carry its count. */
  lemma ParenCount(s: seq<Op>, o: nat)
    requires WellFormed(s) && o < |s| && Opens(s[o].kind)
    ensures Paren(s, o) < |s| && o < s[o].mate < |s|
    ensures s[Paren(s, o)].count == s[o].count == s[s[o].mate].count >= 1
  {
    HalfInside(s, o);
    assert LinkedAt(s, o) && LinkedAt(s, s[o].mate);
    if s[o].kind == Inner2 {
      var p := Paren(s, o);
      assert LinkedAt(s, s[o].inner) && LinkedAt(s, p) && LinkedAt(s, s[p].inner);
    }
  }

  /** A repeat instruction keeps every counter in range. */
  lemma RepStepFits(s: seq<Op>, c: Config)
    requires WellFormed(s) && CountersFit(s, c) && !Costed(s[c.ip].kind)
    ensures RepStep(s, c).Some? && CountersFit(s, RepStep(s, c).value)
  {
    var i := c.ip;
    assert LinkedAt(s, i) && s[i].kind != Done;
    if Opens(s[i].kind) {
      ParenCount(s, i);
      FitPush(s, Enclosing(s, i), c.regs, Paren(s, i), if s[i].kind == Inner2 then 1 else s[i].count);
    } else {
      OpenerEnclosing(s, i);
      ParenCount(s, s[i].mate);
      assert LinkedAt(s, s[i].mate);
      var d := RepStep(s, c).value;
      FitPop(s, Paren(s, s[i].mate), Enclosing(s, i + 1), c.regs, d.regs[0]);
    }
  }

  lemma FitPush(s: seq<Op>, parens: seq<nat>, regs: seq<int>, p: nat, r: int)
    requires Fit(s, parens, regs) && p < |s| && 1 <= r <= s[p].count
    ensures Fit(s, [p] + parens, [r] + regs)
  {
  }

  lemma FitPop(s: seq<Op>, p: nat, parens: seq<nat>, regs: seq<int>, r: int)
    requires Fit(s, [p] + parens, regs)
    ensures Fit(s, parens, regs[1..]) && p < |s| && 1 <= regs[0] <= s[p].count
    ensures 1 <= r <= s[p].count ==> Fit(s, [p] + parens, [r] + regs[1..])
  {
    assert ([p] + parens)[0] == p;
    forall j | 0 <= j < |parens|
      ensures parens[j] < |s| && 1 <= regs[1..][j] <= s[parens[j]].count
    {
      assert ([p] + parens)[j + 1] == parens[j] && regs[1..][j] == regs[j + 1];
    }
  }

  lemma TurnFits(s: seq<Op>, c: Config, zero: bool)
    requires WellFormed(s) && CountersFit(s, c) && Costed(s[c.ip].kind)
    ensures CountersFit(s, AfterTurn(s, c, zero))
  {
    assert LinkedAt(s, c.ip);
    if IsLoop(s[c.ip].kind) {
      LoopEnclosing(s, c.ip);
      LoopBeforeEnd(s, c.ip);
    }
  }

  /** In every reachable state the stack holds one counter for each paren around the instruction, and
      each counter lies between 1 and the count of its paren. */
  lemma {:induction false} CountersInRange(s: seq<Op>, r: int, c: Config, steps: nat)
    requires WellFormed(s) && Reachable(s, r, c, steps)
    ensures CountersFit(s, c)
    decreases steps
  {
    if steps > 0 {
      var n: nat := steps - 1;
      var b :| Reachable(s, r, b, n) && Next(s, b, c);
      CountersInRange(s, r, b, n);
      if Costed(s[b.ip].kind) {
        TurnFits(s, b, true);
        TurnFits(s, b, false);
      } else {
        RepStepFits(s, b);
      }
    }
  }
}
