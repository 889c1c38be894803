/** The repeat stack is never deeper than the static nesting, never underflows, and holds counters in
    range. */
module Heights {
  import opened Nest
  import opened Ops
  import opened Links
  import opened Loops
  import opened Nesting
  import opened Expansion
  import opened RepMachine
  import opened Trace

  lemma {:induction false} DepthNonnegative(s: seq<Op>, i: nat)
    requires Linked(s) && i <= |s|
    ensures Depth(s, i) >= 0
    decreases i
  {
    if i > 0 {
      if Closes(s[i - 1].kind) {
        assert LinkedAt(s, i - 1) && LinkedAt(s, s[i - 1].mate);
        HalfDepth(s, s[i - 1].mate);
        DepthNonnegative(s, s[i - 1].mate);
      } else {
        DepthNonnegative(s, i - 1);
      }
    }
  }

  /** A segment that no block and no loop leaves opens as many halves as it closes. */
  lemma {:induction false} BracketsBalanced(s: seq<Op>, lo: nat, hi: nat)
    requires Linked(s) && Bracketing(s, Brackets(s)) && lo <= hi <= |s| && Closed(Brackets(s), lo, hi)
    ensures Depth(s, hi) == Depth(s, lo)
    decreases hi - lo
  {
    if lo < hi {
      ClosedTail(Brackets(s), lo, hi);
      assert LinkedAt(s, lo) && BracketAt(s, Brackets(s), lo);
      var m := Brackets(s)[lo];
      if m == -1 {
        BracketsBalanced(s, lo + 1, hi);
      } else {
        assert LinkedAt(s, m) && BracketAt(s, Brackets(s), m);
        BracketsBalanced(s, lo + 1, m);
        BracketsBalanced(s, m + 1, hi);
      }
    }
  }

  /** `[` and its `]` sit at the same depth. */
  lemma LoopDepth(s: seq<Op>, i: nat)
    requires Linked(s) && Bracketing(s, Brackets(s)) && i < |s| && IsLoop(s[i].kind)
    ensures 0 <= s[i].mate < |s| && Depth(s, s[i].mate + 1) == Depth(s, i)
  {
    assert BracketAt(s, Brackets(s), i) && Joined(Brackets(s), |s|, i);
    var lo: nat, hi: nat := if i < s[i].mate then i else s[i].mate, if i < s[i].mate then s[i].mate else i;
    assert BracketAt(s, Brackets(s), s[i].mate);
    InsideClosed(Brackets(s), lo);
    BracketsBalanced(s, lo + 1, hi);
  }

  /** The stack holds one counter for each half around the instruction, above the one at the bottom. */
  ghost predicate HeightIsDepth(s: seq<Op>, c: Config)
  {
    c.ip < |s| && |c.regs| == Depth(s, c.ip) + 1
  }

  /** A repeat instruction finds what it pops, and keeps the height equal to the depth. */
  lemma RepStepHeight(s: seq<Op>, c: Config)
    requires WellFormed(s) && HeightIsDepth(s, c) && !Costed(s[c.ip].kind)
    ensures RepStep(s, c).Some? && HeightIsDepth(s, RepStep(s, c).value)
  {
    var i := c.ip;
    assert LinkedAt(s, i);
    DepthNonnegative(s, i);
    if Opens(s[i].kind) {
      HalfDepth(s, i);
    } else {
      assert LinkedAt(s, s[i].mate);
      HalfDepth(s, s[i].mate);
      DepthNonnegative(s, s[i].mate);
    }
  }

  lemma TurnHeight(s: seq<Op>, c: Config, zero: bool)
    requires WellFormed(s) && HeightIsDepth(s, c) && Costed(s[c.ip].kind)
    ensures HeightIsDepth(s, AfterTurn(s, c, zero))
  {
    assert LinkedAt(s, c.ip);
    if IsLoop(s[c.ip].kind) {
      LoopDepth(s, c.ip);
      assert BracketAt(s, Brackets(s), c.ip);
      LoopBeforeEnd(s, c.ip);
    }
  }

  /** The instruction after a bracket's partner exists. */
  lemma LoopBeforeEnd(s: seq<Op>, i: nat)
    requires WellFormed(s) && i < |s| && IsLoop(s[i].kind)
    ensures 0 <= s[i].mate < |s| - 1
  {
    assert BracketAt(s, Brackets(s), i);
  }

  /** One instruction leads from `b` to `c`. */
  ghost predicate Next(s: seq<Op>, b: Config, c: Config)
  {
    b.ip < |s| &&
    if Costed(s[b.ip].kind) then c == AfterTurn(s, b, true) || c == AfterTurn(s, b, false)
    else RepStep(s, b) == Some(c)
  }

  /** A state of some run: `steps` instructions lead to it from the start. */
  ghost predicate Reachable(s: seq<Op>, r: int, c: Config, steps: nat)
    decreases steps
  {
    if steps == 0 then c == Config(0, [r])
    else exists b :: Reachable(s, r, b, steps - 1) && Next(s, b, c)
  }

  lemma NextHeight(s: seq<Op>, b: Config, c: Config)
    requires WellFormed(s) && HeightIsDepth(s, b) && Next(s, b, c)
    ensures HeightIsDepth(s, c)
  {
    if Costed(s[b.ip].kind) {
      TurnHeight(s, b, true);
      TurnHeight(s, b, false);
    } else {
      RepStepHeight(s, b);
    }
  }

  /** In every reachable state the height of the repeat stack is the static nesting depth, which the
      engines' stacks can hold. */
  lemma {:induction false} StackHeight(s: seq<Op>, r: int, c: Config, steps: nat)
    requires WellFormed(s) && Reachable(s, r, c, steps)
    ensures HeightIsDepth(s, c) && |c.regs| - 1 <= 4096
    decreases steps
  {
    if steps > 0 {
      var b :| Reachable(s, r, b, steps - 1) && Next(s, b, c);
      StackHeight(s, r, b, steps - 1);
      NextHeight(s, b, c);
    }
    assert Depth(s, c.ip) <= MAXNEST;
  }

  /** Every reachable state is a state in which the compact program runs in step with the expanded one;
      in particular finitely many repeat instructions lead to one that takes a cycle. */
  lemma {:induction false} ReachableInStep(s: seq<Op>, r: int, c: Config, steps: nat) returns (pc: nat)
    requires WellFormed(s) && Reachable(s, r, c, steps)
    ensures InStep(s, r, c, pc) && Settles(s, c, Place(s, r, pc))
    decreases steps
  {
    if steps == 0 {
      pc := 0;
      StartsInStep(s, r);
    } else {
      var b :| Reachable(s, r, b, steps - 1) && Next(s, b, c);
      pc := ReachableInStep(s, r, b, steps - 1);
      PlaceKind(s, r, pc);
      if Costed(s[b.ip].kind) {
        ReachRefl(s, b);
        SettlesOnce(s, b, b, Place(s, r, pc));
        var zero := c == AfterTurn(s, b, true);
        TurnInStep(s, r, pc, zero);
        pc := NextPc(Program(s), pc, zero);
      } else {
        StepStays(s, r, b, c, pc);
      }
    }
    PlaceKind(s, r, pc);
  }

  /** A repeat instruction is one step closer. */
  lemma StepStays(s: seq<Op>, r: int, b: Config, c: Config, pc: nat)
    requires WellFormed(s) && InStep(s, r, b, pc) && RepStep(s, b) == Some(c)
    requires b.ip < |s| && !Costed(s[b.ip].kind)
    ensures InStep(s, r, c, pc)
  {
    PlaceKind(s, r, pc);
    var n: nat :| RepSteps(s, b, n) == Some(Place(s, r, pc));
    assert n != 0;
    assert RepSteps(s, c, n - 1) == Some(Place(s, r, pc));
  }
}
