/** Compact repeats run exactly like the expanded program. */
module Trace {
  import opened Nest
  import opened Ops
  import opened Links
  import opened Loops
  import opened Nesting
  import opened Expansion
  import opened RepMachine
  import opened Matching

  // The expanded program, run with ordinary bracket matching.

  /** The instruction at `pc`; past the end the program is done. */
  function KindAt(code: seq<Kind>, pc: nat): Kind
  {
    if pc < |code| then code[pc] else Done
  }

  /** Where the program goes on, when the tested cell is zero or not. */
  function NextPc(code: seq<Kind>, pc: nat, zero: bool): nat
  {
    if pc >= |code| then pc
    else if code[pc] == Loop1 && zero then CloseOf(code, pc + 1, 1) + 1
    else if code[pc] == Loop2 && !zero then OpenOf(code, pc, 1) + 1
    else pc + 1
  }

  /** The instructions executed from `pc` on, one for each answer about the tested cell. */
  function FlatTrace(code: seq<Kind>, pc: nat, answers: seq<bool>): seq<Kind>
    decreases |answers|
  {
    if answers == [] then []
    else [KindAt(code, pc)] + FlatTrace(code, NextPc(code, pc, answers[0]), answers[1..])
  }

  // The compact program, run with the repeat stack.

  /** Repeat instructions lead from `c` to an instruction that takes a cycle. */
  ghost predicate Settles(s: seq<Op>, c: Config, d: Config)
  {
    Reach(s, c, d) && d.ip < |s| && Costed(s[d.ip].kind)
  }

  lemma {:induction false} SettleSteps(s: seq<Op>, c: Config, m: nat, d: Config, n: nat, e: Config)
    requires RepSteps(s, c, m) == Some(d) && RepSteps(s, c, n) == Some(e) && m <= n
    requires d.ip < |s| && Costed(s[d.ip].kind)
    ensures m == n && d == e
    decreases m
  {
    if m > 0 {
      SettleSteps(s, RepStep(s, c).value, m - 1, d, n - 1, e);
    }
  }

  /** There is only one such instruction. */
  lemma SettlesOnce(s: seq<Op>, c: Config, d: Config, e: Config)
    requires Settles(s, c, d) && Settles(s, c, e)
    ensures d == e
  {
    var m :| RepSteps(s, c, m) == Some(d);
    var n :| RepSteps(s, c, n) == Some(e);
    if m <= n { SettleSteps(s, c, m, d, n, e); } else { SettleSteps(s, c, n, e, m, d); }
  }

  /** Where the program goes on after an instruction that takes a cycle. */
  function AfterTurn(s: seq<Op>, d: Config, zero: bool): Config
    requires d.ip < |s|
  {
    var o := s[d.ip];
    if o.kind == Done then d
    else if o.kind == (if zero then Loop1 else Loop2) && o.mate >= 0 then d.(ip := o.mate + 1)
    else d.(ip := d.ip + 1)
  }

  /** From `c` the machine executes the instructions `kinds`, one for each answer. */
  ghost predicate Emits(s: seq<Op>, c: Config, answers: seq<bool>, kinds: seq<Kind>)
    decreases |answers|
  {
    if answers == [] then kinds == []
    else kinds != [] && exists d :: Settles(s, c, d) && s[d.ip].kind == kinds[0]
                                    && Emits(s, AfterTurn(s, d, answers[0]), answers[1..], kinds[1..])
  }

  lemma {:induction false} EmitsOnce(s: seq<Op>, c: Config, answers: seq<bool>, ks: seq<Kind>, ls: seq<Kind>)
    requires Emits(s, c, answers, ks) && Emits(s, c, answers, ls)
    ensures ks == ls
    decreases |answers|
  {
    if answers != [] {
      var d :| Settles(s, c, d) && s[d.ip].kind == ks[0] && Emits(s, AfterTurn(s, d, answers[0]), answers[1..], ks[1..]);
      var e :| Settles(s, c, e) && s[e.ip].kind == ls[0] && Emits(s, AfterTurn(s, e, answers[0]), answers[1..], ls[1..]);
      SettlesOnce(s, c, d, e);
      EmitsOnce(s, AfterTurn(s, d, answers[0]), answers[1..], ks[1..], ls[1..]);
      assert ks == [ks[0]] + ks[1..] && ls == [ls[0]] + ls[1..];
    }
  }

  // Both run in step.

  /** All copies of the program. */
  ghost function AllCopies(s: seq<Op>): seq<Copy>
    requires WellFormed(s)
  {
    WholeClosed(s);
    Copies(s, 0, |s| - 1, [])
  }

  lemma CopiesAreProgram(s: seq<Op>)
    requires WellFormed(s)
    ensures Kinds(s, AllCopies(s)) == Program(s)
  {
    WholeClosed(s);
    CopiesExpand(s, 0, |s| - 1, []);
  }

  /** Where the compact program is when the expanded one is at `pc`. */
  ghost function Place(s: seq<Op>, r: int, pc: nat): Config
    requires WellFormed(s)
  {
    if pc < |AllCopies(s)| then At(AllCopies(s)[pc], [r]) else Config(|s| - 1, [r])
  }

  /** The compact program in `c` is about to execute what the expanded program has at `pc`. */
  ghost predicate InStep(s: seq<Op>, r: int, c: Config, pc: nat)
    requires WellFormed(s)
  {
    pc <= |AllCopies(s)| && Reach(s, c, Place(s, r, pc))
  }

  lemma {:induction false} FollowsPast(s: seq<Op>, base: seq<int>, c: Config, cs: seq<Copy>, d: Config, i: nat)
    requires Follows(s, base, c, cs, d) && i < |cs|
    ensures Reach(s, Past(cs[i], base), if i + 1 < |cs| then At(cs[i + 1], base) else d)
    decreases i
  {
    if i > 0 {
      FollowsPast(s, base, Past(cs[0], base), cs[1..], d, i - 1);
    }
  }

  lemma PlaceKind(s: seq<Op>, r: int, pc: nat)
    requires WellFormed(s) && pc <= |AllCopies(s)|
    ensures Place(s, r, pc).ip < |s| && Costed(s[Place(s, r, pc).ip].kind)
    ensures s[Place(s, r, pc).ip].kind == KindAt(Program(s), pc)
    ensures |Program(s)| == |AllCopies(s)|
    ensures pc < |AllCopies(s)| ==> AllCopies(s)[pc].ip == Place(s, r, pc).ip && s[Place(s, r, pc).ip].kind != Done
  {
    CopiesAreProgram(s);
    WholeClosed(s);
    CopiesInside(s, 0, |s| - 1, []);
    if pc < |AllCopies(s)| {
      assert CopyIn(s, 0, |s| - 1, AllCopies(s)[pc]);
    }
  }

  lemma RunProgram(s: seq<Op>, r: int)
    requires WellFormed(s)
    ensures Follows(s, [r], Config(0, [r]), AllCopies(s), Config(|s| - 1, [r]))
  {
    WholeClosed(s);
    var n: nat, base := |s| - 1, [r];
    var cs := Copies(s, 0, n, []);
    RunSegment(s, base, 0, n, []);
    assert Follows(s, base, Config(0, base), cs, Config(n, base));
  }

  lemma StartsInStep(s: seq<Op>, r: int)
    requires WellFormed(s)
    ensures InStep(s, r, Config(0, [r]), 0)
  {
    RunProgram(s, r);
  }

  /** A step keeps both programs at the same point. */
  lemma TurnInStep(s: seq<Op>, r: int, pc: nat, zero: bool)
    requires WellFormed(s) && pc <= |AllCopies(s)|
    ensures Place(s, r, pc).ip < |s|
    ensures InStep(s, r, AfterTurn(s, Place(s, r, pc), zero), NextPc(Program(s), pc, zero))
  {
    PlaceKind(s, r, pc);
    CopiesAreProgram(s);
    RunProgram(s, r);
    var cs, d := AllCopies(s), Place(s, r, pc);
    if pc == |cs| {
      ReachRefl(s, d);
    } else {
      ProgramBalanced(s);
      MatchingPartner(s, cs, pc);
      var i: nat := NextPc(Program(s), pc, zero) - 1;
      FollowsPast(s, [r], Config(0, [r]), cs, Config(|s| - 1, [r]), i);
    }
  }

  /** For every program the parser accepts and all answers about the tested cells, the repeat stack
      executes exactly the instructions of the expanded program. */
  lemma CompactRunsExpanded(s: seq<Op>, r: int, answers: seq<bool>)
    requires WellFormed(s)
    ensures Emits(s, Config(0, [r]), answers, FlatTrace(Program(s), 0, answers))
  {
    StartsInStep(s, r);
    EmitsFrom(s, r, Config(0, [r]), 0, answers);
  }

  lemma {:induction false} EmitsFrom(s: seq<Op>, r: int, c: Config, pc: nat, answers: seq<bool>)
    requires WellFormed(s) && InStep(s, r, c, pc)
    ensures Emits(s, c, answers, FlatTrace(Program(s), pc, answers))
    decreases |answers|
  {
    if answers != [] {
      var d := Place(s, r, pc);
      PlaceKind(s, r, pc);
      TurnInStep(s, r, pc, answers[0]);
      EmitsFrom(s, r, AfterTurn(s, d, answers[0]), NextPc(Program(s), pc, answers[0]), answers[1..]);
      var ks := FlatTrace(Program(s), pc, answers);
      assert ks[1..] == FlatTrace(Program(s), NextPc(Program(s), pc, answers[0]), answers[1..]);
      assert Settles(s, c, d);
    }
  }
}
