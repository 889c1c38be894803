/** The native code back end: at the outermost level the repeat counter is neither saved nor restored. */
module Wrench {
  import opened Nest
  import opened Ops
  import opened Links
  import opened Loops
  import opened Nesting
  import opened Expansion
  import opened RepMachine
  import opened Trace
  import opened Heights

  /** The compilers keep count of the depth, and use the variant that saves or restores inside of
      another half: closers lower the depth before the choice, openers raise it afterwards. */
  function Nested(s: seq<Op>, i: nat): bool
    requires i < |s|
  {
    (Opens(s[i].kind) && Depth(s, i) > 0) || (Closes(s[i].kind) && Depth(s, i) - 1 > 0)
  }

  /** An opener saves if and only if its closer restores. */
  lemma VariantsAgree(s: seq<Op>, o: nat)
    requires Linked(s) && o < |s| && Opens(s[o].kind)
    ensures o < s[o].mate < |s| && (Nested(s, o) <==> Nested(s, s[o].mate))
  {
    assert LinkedAt(s, o) && LinkedAt(s, s[o].mate);
    HalfDepth(s, o);
  }

  /** `regs[0]` is the counter register, the rest the stack. */
  function Enter(s: seq<Op>, c: Config, count: int): Config
    requires c.ip < |s| && c.regs != []
  {
    Config(c.ip + 1, [count] + if Nested(s, c.ip) then c.regs else c.regs[1..])
  }

  /** The counter becomes `r`; another turn after `mate`, or on to the next instruction. */
  function Leave(s: seq<Op>, c: Config, r: int, again: bool, mate: int): Option<Config>
    requires c.ip < |s| && c.regs != [] && mate >= -1
  {
    if again then Some(Config(mate + 1, [r] + c.regs[1..]))
    else if !Nested(s, c.ip) then Some(Config(c.ip + 1, [r] + c.regs[1..]))
    else if |c.regs| == 1 then None
    else Some(Config(c.ip + 1, c.regs[1..]))
  }

  /** One repeat instruction of the native code. */
  function WrenchStep(s: seq<Op>, c: Config): Option<Config>
  {
    if c.ip >= |s| || c.regs == [] || s[c.ip].mate < -1 then None
    else
      var o := s[c.ip];
      if o.kind == Rep1 || o.kind == IRep1 then Some(Enter(s, c, o.count))
      else if o.kind == Inner2 then Some(Enter(s, c, 1))
      else if o.kind == Rep2 || o.kind == Inner1 then Leave(s, c, c.regs[0] - 1, c.regs[0] - 1 != 0, o.mate)
      else if o.kind == IRep2 then Leave(s, c, c.regs[0] + 1, c.regs[0] + 1 <= o.count, o.mate)
      else None
  }

  function WrenchSteps(s: seq<Op>, c: Config, n: nat): Option<Config>
    decreases n
  {
    if n == 0 then Some(c)
    else
      match WrenchStep(s, c)
      case None => None
      case Some(d) => WrenchSteps(s, d, n - 1)
  }

  /** The native code in `w` does what the saving machine does in `c`: inside of halves the registers
      are the same but for what lies at the bottom; outside, the counter does not matter. */
  predicate Simulates(s: seq<Op>, c: Config, w: Config)
  {
    && w.ip == c.ip && c.regs != [] && w.regs != []
    && if |c.regs| == 1 then |w.regs| == 1 else w.regs == c.regs[..|c.regs| - 1]
  }

  /** `Simulates` for the registers alone. */
  predicate Stand(regs: seq<int>, wregs: seq<int>)
  {
    regs != [] && wregs != [] && if |regs| == 1 then |wregs| == 1 else wregs == regs[..|regs| - 1]
  }

  lemma StandPush(regs: seq<int>, wregs: seq<int>, x: int)
    requires Stand(regs, wregs)
    ensures Stand([x] + regs, [x] + if |regs| > 1 then wregs else wregs[1..])
  {
  }

  lemma StandPop(regs: seq<int>, wregs: seq<int>, x: int)
    requires Stand(regs, wregs) && |regs| > 1
    ensures regs[0] == wregs[0] && Stand([x] + regs[1..], [x] + wregs[1..])
    ensures if |regs| > 2 then |wregs| > 1 && Stand(regs[1..], wregs[1..]) else Stand(regs[1..], [x] + wregs[1..])
  {
  }

  /** The depth shows on the stack whether a counter is saved. */
  lemma NestedHeight(s: seq<Op>, c: Config)
    requires WellFormed(s) && HeightIsDepth(s, c) && !Costed(s[c.ip].kind) && c.regs != []
    ensures Opens(s[c.ip].kind) ==> (Nested(s, c.ip) <==> |c.regs| > 1)
    ensures Closes(s[c.ip].kind) ==> |c.regs| > 1 && (Nested(s, c.ip) <==> |c.regs| > 2)
  {
    DepthNonnegative(s, c.ip);
    DepthNonnegative(s, c.ip + 1);
    assert LinkedAt(s, c.ip);
  }

  lemma StepAlike(s: seq<Op>, c: Config, w: Config, nested: bool)
    requires c.ip == w.ip < |s| && nested == Nested(s, c.ip) && s[c.ip].mate >= -1 && Stand(c.regs, w.regs)
    requires Opens(s[c.ip].kind) || Closes(s[c.ip].kind)
    requires Opens(s[c.ip].kind) ==> (nested <==> |c.regs| > 1)
    requires Closes(s[c.ip].kind) ==> |c.regs| > 1 && (nested <==> |c.regs| > 2)
    ensures RepStep(s, c).Some? && WrenchStep(s, w).Some? && Simulates(s, RepStep(s, c).value, WrenchStep(s, w).value)
  {
    var o := s[c.ip];
    if Opens(o.kind) {
      StandPush(c.regs, w.regs, if o.kind == Inner2 then 1 else o.count);
    } else {
      StandPop(c.regs, w.regs, if o.kind == IRep2 then c.regs[0] + 1 else c.regs[0] - 1);
    }
  }

  /** One repeat instruction keeps them together. */
  lemma StepSimulates(s: seq<Op>, c: Config, w: Config)
    requires WellFormed(s) && HeightIsDepth(s, c) && Simulates(s, c, w) && !Costed(s[c.ip].kind)
    ensures RepStep(s, c).Some? && HeightIsDepth(s, RepStep(s, c).value)
    ensures WrenchStep(s, w).Some? && Simulates(s, RepStep(s, c).value, WrenchStep(s, w).value)
  {
    RepStepHeight(s, c);
    NestedHeight(s, c);
    assert LinkedAt(s, c.ip);
    StepAlike(s, c, w, Nested(s, c.ip));
  }

  lemma TurnSimulates(s: seq<Op>, c: Config, w: Config, zero: bool)
    requires WellFormed(s) && HeightIsDepth(s, c) && Simulates(s, c, w) && Costed(s[c.ip].kind)
    ensures HeightIsDepth(s, AfterTurn(s, c, zero)) && Simulates(s, AfterTurn(s, c, zero), AfterTurn(s, w, zero))
  {
    TurnHeight(s, c, zero);
  }

  lemma {:induction false} StepsSimulate(s: seq<Op>, c: Config, w: Config, d: Config, n: nat) returns (v: Config)
    requires WellFormed(s) && HeightIsDepth(s, c) && Simulates(s, c, w) && RepSteps(s, c, n) == Some(d)
    ensures WrenchSteps(s, w, n) == Some(v) && HeightIsDepth(s, d) && Simulates(s, d, v)
    decreases n
  {
    if n == 0 {
      v := w;
    } else {
      assert !Costed(s[c.ip].kind);
      StepSimulates(s, c, w);
      v := StepsSimulate(s, RepStep(s, c).value, WrenchStep(s, w).value, d, n - 1);
    }
  }

  /** `n` repeat instructions lead from `w` to `v`, whose instruction takes a cycle. */
  ghost predicate WrenchSettles(s: seq<Op>, w: Config, n: nat, v: Config)
  {
    WrenchSteps(s, w, n) == Some(v) && v.ip < |s| && Costed(s[v.ip].kind)
  }

  /** From `w` the native code executes the instructions `kinds`, one for each answer. */
  ghost predicate WrenchEmits(s: seq<Op>, w: Config, answers: seq<bool>, kinds: seq<Kind>)
    decreases |answers|
  {
    if answers == [] then kinds == []
    else kinds != [] && exists n, v :: WrenchSettles(s, w, n, v) && s[v.ip].kind == kinds[0]
                                       && WrenchEmits(s, AfterTurn(s, v, answers[0]), answers[1..], kinds[1..])
  }

  lemma {:induction false} WrenchSettlesOnce(s: seq<Op>, w: Config, m: nat, d: Config, n: nat, e: Config)
    requires WrenchSettles(s, w, m, d) && WrenchSettles(s, w, n, e)
    ensures d == e
    decreases m
  {
    if m > 0 && n > 0 { WrenchSettlesOnce(s, WrenchStep(s, w).value, m - 1, d, n - 1, e); }
  }

  /** What the native code executes is determined by the answers. */
  lemma {:induction false} WrenchEmitsOnce(s: seq<Op>, w: Config, answers: seq<bool>, ks: seq<Kind>, ls: seq<Kind>)
    requires WrenchEmits(s, w, answers, ks) && WrenchEmits(s, w, answers, ls)
    ensures ks == ls
    decreases |answers|
  {
    if answers != [] {
      var m: nat, d: Config :| WrenchSettles(s, w, m, d) && s[d.ip].kind == ks[0]
                               && WrenchEmits(s, AfterTurn(s, d, answers[0]), answers[1..], ks[1..]);
      var n: nat, e: Config :| WrenchSettles(s, w, n, e) && s[e.ip].kind == ls[0]
                               && WrenchEmits(s, AfterTurn(s, e, answers[0]), answers[1..], ls[1..]);
      WrenchSettlesOnce(s, w, m, d, n, e);
      WrenchEmitsOnce(s, AfterTurn(s, d, answers[0]), answers[1..], ks[1..], ls[1..]);
      assert ks == [ks[0]] + ks[1..] && ls == [ls[0]] + ls[1..];
    }
  }

  lemma {:induction false} EmitsSimulated(s: seq<Op>, c: Config, w: Config, answers: seq<bool>, kinds: seq<Kind>)
    requires WellFormed(s) && HeightIsDepth(s, c) && Simulates(s, c, w) && Emits(s, c, answers, kinds)
    ensures WrenchEmits(s, w, answers, kinds)
    decreases |answers|
  {
    if answers != [] {
      var d :| Settles(s, c, d) && s[d.ip].kind == kinds[0] && Emits(s, AfterTurn(s, d, answers[0]), answers[1..], kinds[1..]);
      var n: nat :| RepSteps(s, c, n) == Some(d);
      var v := StepsSimulate(s, c, w, d, n);
      TurnSimulates(s, d, v, answers[0]);
      EmitsSimulated(s, AfterTurn(s, d, answers[0]), AfterTurn(s, v, answers[0]), answers[1..], kinds[1..]);
      assert WrenchSettles(s, w, n, v);
    }
  }

  /** Not saving at the outermost level makes no difference, whatever the counter register holds: the
      native code executes the instructions of the expanded program, and nothing else. */
  lemma ElisionRunsExpanded(s: seq<Op>, x: int, answers: seq<bool>)
    requires WellFormed(s)
    ensures forall kinds: seq<Kind> ::
              WrenchEmits(s, Config(0, [x]), answers, kinds) <==> kinds == FlatTrace(Program(s), 0, answers)
  {
    ElisionRuns(s, x, answers);
    forall kinds: seq<Kind> | WrenchEmits(s, Config(0, [x]), answers, kinds)
      ensures kinds == FlatTrace(Program(s), 0, answers)
    {
      WrenchEmitsOnce(s, Config(0, [x]), answers, kinds, FlatTrace(Program(s), 0, answers));
    }
  }

  lemma ElisionRuns(s: seq<Op>, x: int, answers: seq<bool>)
    requires WellFormed(s)
    ensures WrenchEmits(s, Config(0, [x]), answers, FlatTrace(Program(s), 0, answers))
  {
    CompactRunsExpanded(s, x, answers);
    EmitsSimulated(s, Config(0, [x]), Config(0, [x]), answers, FlatTrace(Program(s), 0, answers));
  }
}
