/** The engines' repeat stack and the interpreter's static counters, instruction by instruction. */
module Lockstep {
  import opened Nest
  import opened Ops
  import opened Links
  import opened Loops
  import opened Expansion
  import opened RepMachine
  import opened Trace
  import opened Heights
  import opened Enclosure
  import opened Counters
  import opened EgoRun

  // Runs: `n` instructions of either kind, with one answer for each that takes a cycle.

  function EngineAfter(s: seq<Op>, c: Config, answers: seq<bool>, n: nat): Option<Config>
    decreases n
  {
    if n == 0 then Some(c)
    else if c.ip < |s| && Costed(s[c.ip].kind) then
      if answers == [] then None else EngineAfter(s, AfterTurn(s, c, answers[0]), answers[1..], n - 1)
    else
      match RepStep(s, c)
      case None => None
      case Some(d) => EngineAfter(s, d, answers, n - 1)
  }

  ghost function EgoAfter(s: seq<Op>, e: Ego, answers: seq<bool>, n: nat): Option<Ego>
    requires Linked(s)
    decreases n
  {
    if n == 0 then Some(e)
    else if e.pc >= |s| || |e.iter| != |s| then None
    else if Costed(s[e.pc].kind) then
      if answers == [] then None else EgoAfter(s, EgoTurn(s, e, answers[0]), answers[1..], n - 1)
    else EgoAfter(s, EgoStep(s, e), answers, n - 1)
  }

  /** Counter `j` of the stack is the count of paren `j` around the instruction minus its static counter. */
  ghost predicate ShowsAt(s: seq<Op>, parens: seq<nat>, regs: seq<int>, iter: seq<int>, j: nat)
  {
    j < |parens| && j < |regs| && |iter| == |s| ==> parens[j] < |s| && regs[j] == s[parens[j]].count - iter[parens[j]]
  }

  ghost predicate Shows(s: seq<Op>, parens: seq<nat>, regs: seq<int>, iter: seq<int>)
  {
    |regs| == |parens| + 1 && |iter| == |s| && forall j: nat {:trigger ShowsAt(s, parens, regs, iter, j)} :: ShowsAt(s, parens, regs, iter, j)
  }

  /** Both are at the same instruction, and level by level, over the parens around it, the counters on the
      stack are what the static counters say. */
  ghost predicate Together(s: seq<Op>, c: Config, e: Ego)
    requires Linked(s)
  {
    c.ip == e.pc < |s| && Shows(s, Enclosing(s, c.ip), c.regs, e.iter)
  }

  // No paren encloses an instruction twice.

  /** A half of paren `p` that is open before position `i`. */
  ghost predicate HalfAround(s: seq<Op>, p: nat, i: nat, q: nat)
    requires Linked(s)
  {
    q < i <= |s| && Opens(s[q].kind) && Paren(s, q) == p && i <= s[q].mate
  }

  lemma {:induction false} EnclosingHalf(s: seq<Op>, i: nat, p: nat) returns (q: nat)
    requires Linked(s) && i <= |s| && p in Enclosing(s, i)
    ensures HalfAround(s, p, i, q)
    decreases i
  {
    var b: nat := i - 1;
    assert LinkedAt(s, b);
    if Closes(s[b].kind) {
      OpenerEnclosing(s, b);
      CloserEnclosing(s, s[b].mate);
      q := EnclosingHalf(s, s[b].mate, p);
      AroundClosed(s, p, s[b].mate, q);
    } else if Opens(s[b].kind) && p == Paren(s, b) {
      q := b;
      HalfInside(s, b);
    } else {
      q := EnclosingHalf(s, b, p);
      HalfInside(s, q);
    }
  }

  /** A half around an opener is also around its closer. */
  lemma AroundClosed(s: seq<Op>, p: nat, o: nat, q: nat)
    requires Linked(s) && o < |s| && HalfAround(s, p, o, q) && Opens(s[o].kind)
    ensures o < s[o].mate < |s| && HalfAround(s, p, s[o].mate + 1, q)
  {
    HalfInside(s, q);
    HalfInside(s, o);
    assert Apart(Halves(s), q, o);
  }

  /** A half that begins at `o` belongs to no paren around it. */
  lemma NewParen(s: seq<Op>, o: nat)
    requires Linked(s) && o < |s| && Opens(s[o].kind)
    ensures Paren(s, o) !in Enclosing(s, o)
  {
    if Paren(s, o) in Enclosing(s, o) {
      var q := EnclosingHalf(s, o, Paren(s, o));
      HalfInside(s, q);
      OtherParen(s, q, o);
    }
  }

  // Single instructions.

  lemma ShowsPush(s: seq<Op>, parens: seq<nat>, regs: seq<int>, iter: seq<int>, p: nat, x: int)
    requires Shows(s, parens, regs, iter) && p < |s| && p !in parens
    ensures Shows(s, [p] + parens, [s[p].count - x] + regs, iter[p := x])
  {
    var ps, rs, it := [p] + parens, [s[p].count - x] + regs, iter[p := x];
    forall j: nat {:trigger ShowsAt(s, ps, rs, it, j)}
      ensures ShowsAt(s, ps, rs, it, j)
    {
      if 0 < j < |ps| { assert ShowsAt(s, parens, regs, iter, j - 1) && ps[j] == parens[j - 1] && rs[j] == regs[j - 1]; }
    }
  }

  lemma ShowsPop(s: seq<Op>, p: nat, parens: seq<nat>, regs: seq<int>, iter: seq<int>, x: int)
    requires Shows(s, [p] + parens, regs, iter) && p !in parens
    ensures p < |s| && regs[0] == s[p].count - iter[p]
    ensures Shows(s, parens, regs[1..], iter[p := x])
    ensures Shows(s, [p] + parens, [s[p].count - x] + regs[1..], iter[p := x])
  {
    var ps := [p] + parens;
    assert ShowsAt(s, ps, regs, iter, 0) && ps[0] == p;
    forall j: nat {:trigger ShowsAt(s, parens, regs[1..], iter[p := x], j)}
      ensures ShowsAt(s, parens, regs[1..], iter[p := x], j)
    {
      if j < |parens| { assert ShowsAt(s, ps, regs, iter, j + 1) && ps[j + 1] == parens[j]; }
    }
    assert iter[p := x][p := x] == iter[p := x];
    ShowsPush(s, parens, regs[1..], iter[p := x], p, x);
  }

  /** `(` and `}`: the stack gets a new counter, and the paren's static counter begins a new half. */
  lemma OpenTogether(s: seq<Op>, c: Config, e: Ego)
    requires WellFormed(s) && CountersFit(s, c) && Together(s, c, e) && Opens(s[c.ip].kind)
    ensures RepStep(s, c).Some? && Together(s, RepStep(s, c).value, EgoStep(s, e))
  {
    var i := c.ip;
    var p := Paren(s, i);
    RepStepFits(s, c);
    ParenCount(s, i);
    NewParen(s, i);
    assert LinkedAt(s, i);
    if s[i].kind == Inner2 { assert LinkedAt(s, s[i].inner); }
    ShowsPush(s, Enclosing(s, i), c.regs, e.iter, p, if s[i].kind == Inner2 then s[p].count - 1 else 0);
  }

  /** What the closing token of the half at `o` does to both. */
  lemma CloseSteps(s: seq<Op>, c: Config, e: Ego, o: nat, x: int)
    requires WellFormed(s) && c.ip == e.pc < |s| == |e.iter| && c.regs != [] && o < |s| && Opens(s[o].kind) && c.ip == s[o].mate
    requires var p := Paren(s, o);
             && p < |s| && s[p].count == s[o].count == s[c.ip].count && 1 <= c.regs[0] <= s[p].count
             && c.regs[0] == s[p].count - e.iter[p] && (|c.regs| > 1)
             && x == if s[o].kind == Inner2 then e.iter[p] - 1 else e.iter[p] + 1
    ensures var p, again := Paren(s, o), if s[o].kind == Inner2 then x >= 0 else x < s[o].count;
            && RepStep(s, c) == Some(if again then Config(o + 1, [s[p].count - x] + c.regs[1..]) else Config(c.ip + 1, c.regs[1..]))
            && EgoStep(s, e) == Ego(if again then o + 1 else e.pc + 1, e.iter[p := x])
  {
    CloserParen(s, o);
    ParenInside(s, o);
    assert LinkedAt(s, o) && LinkedAt(s, c.ip);
  }

  /** `)` and `{`: both begin another turn, or both leave the half. */
  lemma CloseTogether(s: seq<Op>, c: Config, e: Ego)
    requires WellFormed(s) && CountersFit(s, c) && Together(s, c, e) && Closes(s[c.ip].kind)
    ensures RepStep(s, c).Some? && Together(s, RepStep(s, c).value, EgoStep(s, e))
  {
    var i := c.ip;
    OpenerEnclosing(s, i);
    var o: nat := s[i].mate;
    var p := Paren(s, o);
    HalfInside(s, o);
    CloserParen(s, o);
    CloserMate(s, i);
    CloserEnclosing(s, o);
    ParenCount(s, o);
    NewParen(s, o);
    var x := if s[o].kind == Inner2 then e.iter[p] - 1 else e.iter[p] + 1;
    ShowsPop(s, p, Enclosing(s, i + 1), c.regs, e.iter, x);
    FitPop(s, p, Enclosing(s, i + 1), c.regs, 0);
    CloseSteps(s, c, e, o, x);
  }

  lemma CloserMate(s: seq<Op>, i: nat)
    requires Linked(s) && i < |s| && Closes(s[i].kind)
    ensures 0 <= s[i].mate < i && s[s[i].mate].mate == i
  {
    assert LinkedAt(s, i);
  }

  lemma TurnTogether(s: seq<Op>, c: Config, e: Ego, zero: bool)
    requires WellFormed(s) && Together(s, c, e) && Costed(s[c.ip].kind)
    ensures Together(s, AfterTurn(s, c, zero), EgoTurn(s, e, zero))
  {
    assert LinkedAt(s, c.ip);
    if IsLoop(s[c.ip].kind) {
      LoopEnclosing(s, c.ip);
      LoopBeforeEnd(s, c.ip);
    }
  }

  /** From states that belong together, the same answers lead to states that belong together. */
  lemma {:induction false} StayTogether(s: seq<Op>, c: Config, e: Ego, answers: seq<bool>, n: nat)
    requires WellFormed(s) && CountersFit(s, c) && Together(s, c, e)
    ensures EngineAfter(s, c, answers, n).Some? <==> EgoAfter(s, e, answers, n).Some?
    ensures EngineAfter(s, c, answers, n).Some? ==>
              Together(s, EngineAfter(s, c, answers, n).value, EgoAfter(s, e, answers, n).value)
    decreases n
  {
    if n > 0 {
      if Costed(s[c.ip].kind) {
        if answers != [] {
          TurnTogether(s, c, e, answers[0]);
          TurnFits(s, c, answers[0]);
          StayTogether(s, AfterTurn(s, c, answers[0]), EgoTurn(s, e, answers[0]), answers[1..], n - 1);
        }
      } else {
        RepStepFits(s, c);
        if Opens(s[c.ip].kind) { OpenTogether(s, c, e); } else { CloseTogether(s, c, e); }
        StayTogether(s, RepStep(s, c).value, EgoStep(s, e), answers, n - 1);
      }
    }
  }

  /** In every state of every run, whatever the counters held at first: the engine and the interpreter
      are at the same instruction, and the counters on the stack are, level by level over the parens around
      it, the counts minus the static counters. */
  lemma StackIsCounters(s: seq<Op>, r: int, iter: seq<int>, answers: seq<bool>, n: nat)
    requires WellFormed(s) && |iter| == |s|
    ensures var c, e := EngineAfter(s, Config(0, [r]), answers, n), EgoAfter(s, Ego(0, iter), answers, n);
            (c.Some? <==> e.Some?) && (c.Some? ==> Together(s, c.value, e.value))
  {
    StayTogether(s, Config(0, [r]), Ego(0, iter), answers, n);
  }
}
