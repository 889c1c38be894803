/** The static counters run like the expanded program, and simulate the repeat stack. */
module EgoRun {
  import opened Nest
  import opened Ops
  import opened Links
  import opened Loops
  import opened Expansion
  import opened RepMachine
  import opened Matching
  import opened Trace
  import opened Binding
  import opened Skipping
  import opened Counters

  // Running the list `t` that is in effect run makes its copies, in order.

  lemma SurfaceNext(s: seq<Op>, t: seq<Op>, lo: nat)
    requires RunsAs(s, t) && Surface(s, lo) && lo < |s| && !Closes(t[lo].kind)
    ensures lo < After(t, lo) <= |s| && Surface(s, After(t, lo))
  {
    var next := After(t, lo);
    assert LinkedAt(t, lo);
    RunOpAt(s, lo);
    if Opens(t[lo].kind) { SurfaceHalf(s, t, lo); }
    forall z: nat {:trigger Zero(s, z)} | Zero(s, z) && z < next
      ensures s[z].inner < next
    {
      if z == lo {
        ZeroCut(s, lo);
      } else if z > lo {
        ZeroBlock(s, t, z);
        assert Apart(Halves(t), lo, z);
      }
    }
  }

  lemma ZeroCut(s: seq<Op>, z: nat)
    requires Linked(s) && Zero(s, z)
    ensures Cut(s, z) && Head(s, z) == z
  {
    FourTokens(s, z);
    assert Within(s, z, s[z].mate);
  }

  /** A skipped paren is one half of the new list. */
  lemma ZeroBlock(s: seq<Op>, t: seq<Op>, z: nat)
    requires RunsAs(s, t) && Zero(s, z)
    ensures z < |t| && Halves(t)[z] == s[z].inner && t[z].kind == Rep1
  {
    ZeroCut(s, z);
    RunOpAt(s, z);
  }

  lemma SurfaceInside(s: seq<Op>, t: seq<Op>, o: nat)
    requires RunsAs(s, t) && Surface(s, o) && o < |s| && Opens(t[o].kind) && t[o].count != 0
    ensures Surface(s, o + 1)
  {
    SurfaceHalf(s, t, o);
    forall z: nat {:trigger Zero(s, z)} | Zero(s, z) && z < o + 1
      ensures s[z].inner < o + 1
    {
      if z == o { ZeroCut(s, o); }
    }
  }

  /** Running a closed segment makes its copies in order. */
  lemma {:induction false} ChainSegment(s: seq<Op>, t: seq<Op>, lo: nat, hi: nat, turns: seq<Turn>)
    requires RunsAs(s, t) && lo <= hi <= |s| && Closed(Halves(t), lo, hi) && Fresh(t, lo, hi, turns)
    requires Surface(s, lo)
    ensures Chain(s, t, Copy(lo, turns), Copies(t, lo, hi, turns), Copy(hi, turns))
    decreases hi - lo, 0
  {
    var x := Copy(lo, turns);
    LeadsRefl(s, t, x);
    if lo < hi {
      CopiesHead(t, lo, hi, turns);
      var mid: nat := After(t, lo);
      SurfaceNext(s, t, lo);
      ChainSegment(s, t, mid, hi, turns);
      if Costed(t[lo].kind) {
        LeadsRefl(s, t, Copy(mid, turns));
        assert Chain(s, t, Next(x), [], Copy(mid, turns));
      } else {
        assert LinkedAt(t, lo);
        ChainHalf(s, t, lo, turns);
      }
      ChainAppend(s, t, x, First(t, lo, turns), Copy(mid, turns), Copies(t, mid, hi, turns), Copy(hi, turns));
    }
  }

  /** Running a half makes the copies of all its turns. */
  lemma {:induction false} ChainHalf(s: seq<Op>, t: seq<Op>, o: nat, turns: seq<Turn>)
    requires RunsAs(s, t) && o < |s| && Opens(t[o].kind) && o < t[o].mate < |s|
    requires Fresh(t, o, t[o].mate, turns) && Surface(s, o)
    ensures Chain(s, t, Copy(o, turns), Half(t, o, turns), Copy(t[o].mate + 1, turns))
    decreases t[o].mate - o, if t[o].count < 0 then 1 else t[o].count + 1
  {
    var exit := Copy(t[o].mate + 1, turns);
    assert FreshAt(t, turns, o);
    HalfRuns(s, t, o);
    if t[o].count == 0 {
      SkipLeads(s, t, o, turns);
    } else {
      var k := if t[o].kind == Inner2 then 1 else t[o].count;
      OpenLeads(s, t, o, turns);
      ChainTurns(s, t, o, k, turns);
      ChainFrom(s, t, Copy(o, turns), Copy(o + 1, [Turn(Paren(t, o), k)] + turns), Half(t, o, turns), exit);
    }
  }

  /** Only the blocks of skipped parens and plain repeats have count 0. */
  lemma HalfRuns(s: seq<Op>, t: seq<Op>, o: nat)
    requires RunsAs(s, t) && Surface(s, o) && o < |s| && Opens(t[o].kind)
    ensures t[o].count >= 0 && (t[o].count == 0 ==> t[o].kind == Rep1)
  {
    SurfaceHalf(s, t, o);
    assert LinkedAt(s, o) && LinkedAt(t, o) && LinkedAt(t, t[o].mate);
    ParenInside(t, o);
    if t[o].kind == Inner2 {
      HeadOf(s, o);
      FourTokens(s, Paren(s, o));
      RunOpAt(s, o);
      if !Cut(s, Head(s, o)) { NotZero(s, Head(s, o)); }
    }
  }

  /** The turns from `k` on. */
  ghost function Turns(t: seq<Op>, o: nat, k: int, turns: seq<Turn>): seq<Copy>
    requires Linked(t) && o < |t| && Opens(t[o].kind)
  {
    if t[o].kind == Inner2 then Upward(t, o, k, turns) else Downward(t, o, k, turns)
  }

  lemma {:induction false} ChainTurns(s: seq<Op>, t: seq<Op>, o: nat, k: int, turns: seq<Turn>)
    requires RunsAs(s, t) && o < |s| && Opens(t[o].kind) && o < t[o].mate < |s|
    requires Fresh(t, o, t[o].mate, turns) && 1 <= k <= t[o].count && Surface(s, o)
    ensures Chain(s, t, Copy(o + 1, [Turn(Paren(t, o), k)] + turns), Turns(t, o, k, turns), Copy(t[o].mate + 1, turns))
    decreases t[o].mate - o, if t[o].kind == Inner2 then t[o].count - k + 1 else k
  {
    HalfInside(t, o);
    var m: nat := t[o].mate;
    var turns' := [Turn(Paren(t, o), k)] + turns;
    var start, end, exit := Copy(o + 1, turns'), Copy(m, turns'), Copy(m + 1, turns);
    var rest := Turns(t, o, NextTurn(t, o, k), turns);
    FreshInside(t, o, turns, k);
    SurfaceInside(s, t, o);
    ChainSegment(s, t, o + 1, m, turns');
    assert FreshAt(t, turns, o);
    CloseLeads(s, t, o, k, turns);
    if MoreTurns(t, o, k) {
      ChainTurns(s, t, o, NextTurn(t, o, k), turns);
      ChainFrom(s, t, end, Copy(o + 1, [Turn(Paren(t, o), NextTurn(t, o, k))] + turns), rest, exit);
    } else {
      assert rest == [];
    }
    ChainAppend(s, t, start, Copies(t, o + 1, m, turns'), end, rest, exit);
    assert Turns(t, o, k, turns) == Copies(t, o + 1, m, turns') + rest;
  }

  /** What the interpreter demands of a program. */
  ghost predicate Accepted(s: seq<Op>)
  {
    Linked(s) && Bracketing(s, Brackets(s)) && EndsDone(s)
  }

  /** The program that the interpreter runs. */
  ghost function EgoProgram(s: seq<Op>): seq<Kind>
    requires Accepted(s)
  {
    AsRunFormed(s);
    Program(AsRun(s))
  }

  ghost function WrittenOut(s: seq<Op>): seq<Copy>
    requires Accepted(s)
  {
    AsRunFormed(s);
    WholeClosed(AsRun(s));
    Copies(AsRun(s), 0, |s| - 1, [])
  }

  /** Where the interpreter is when its program is at `pc`. */
  ghost function Spot(s: seq<Op>, pc: nat): Copy
    requires Accepted(s)
  {
    if pc < |WrittenOut(s)| then WrittenOut(s)[pc] else Copy(|s| - 1, [])
  }

  ghost predicate AtSpot(s: seq<Op>, e: Ego, pc: nat)
    requires Accepted(s)
  {
    pc <= |WrittenOut(s)| && Arrived(AsRun(s), e, Spot(s, pc))
  }

  /** The interpreter in `e` is about to execute what its program has at `pc`. */
  ghost predicate EgoInStep(s: seq<Op>, e: Ego, pc: nat)
    requires Accepted(s)
  {
    exists n :: AtSpot(s, EgoSteps(s, e, n), pc)
  }

  lemma SpotKind(s: seq<Op>, pc: nat)
    requires Accepted(s) && pc <= |WrittenOut(s)|
    ensures |EgoProgram(s)| == |WrittenOut(s)| && Spot(s, pc).ip < |s|
    ensures Costed(s[Spot(s, pc).ip].kind) && s[Spot(s, pc).ip].kind == KindAt(EgoProgram(s), pc)
    ensures AsRun(s)[Spot(s, pc).ip] == s[Spot(s, pc).ip]
    ensures pc < |WrittenOut(s)| ==> Spot(s, pc).ip < |s| - 1
  {
    var t := AsRun(s);
    AsRunFormed(s);
    WholeClosed(t);
    CopiesExpand(t, 0, |s| - 1, []);
    CopiesInside(t, 0, |s| - 1, []);
    if pc < |WrittenOut(s)| {
      assert CopyIn(t, 0, |s| - 1, WrittenOut(s)[pc]);
      assert Kinds(t, WrittenOut(s))[pc] == KindOf(t, WrittenOut(s)[pc]);
    }
    RunOpAt(s, Spot(s, pc).ip);
  }

  lemma WholeChain(s: seq<Op>)
    requires Accepted(s)
    ensures Chain(s, AsRun(s), Copy(0, []), WrittenOut(s), Copy(|s| - 1, []))
  {
    AsRunFormed(s);
    ChainWhole(s, AsRun(s));
  }

  lemma ChainWhole(s: seq<Op>, t: seq<Op>)
    requires RunsAs(s, t) && EndsDone(t)
    ensures Closed(Halves(t), 0, |s| - 1) && Chain(s, t, Copy(0, []), Copies(t, 0, |s| - 1, []), Copy(|s| - 1, []))
  {
    WholeClosed(t);
    ChainSegment(s, t, 0, |s| - 1, []);
  }

  /** The chain goes on from any point of it. */
  lemma GoesOn(s: seq<Op>, e: Ego, i: nat)
    requires Accepted(s) && i < |WrittenOut(s)| && Arrived(AsRun(s), e, Counters.Next(WrittenOut(s)[i]))
    ensures EgoInStep(s, e, i + 1)
  {
    WholeChain(s);
    ChainPast(s, AsRun(s), Copy(0, []), WrittenOut(s), Copy(|s| - 1, []), i);
    var n: nat :| Arrived(AsRun(s), EgoSteps(s, e, n), Spot(s, i + 1));
    assert AtSpot(s, EgoSteps(s, e, n), i + 1);
  }

  /** It does not matter what the counters hold at first. */
  lemma EgoStarts(s: seq<Op>, iter: seq<int>)
    requires Accepted(s) && |iter| == |s|
    ensures EgoInStep(s, Ego(0, iter), 0)
  {
    WholeChain(s);
    assert Arrived(AsRun(s), Ego(0, iter), Copy(0, []));
    var n: nat :| Arrived(AsRun(s), EgoSteps(s, Ego(0, iter), n), Spot(s, 0));
    assert AtSpot(s, EgoSteps(s, Ego(0, iter), n), 0);
  }

  /** An instruction that takes a cycle, when the tested cell is zero or not. */
  function EgoTurn(s: seq<Op>, e: Ego, zero: bool): Ego
    requires e.pc < |s|
  {
    var o := s[e.pc];
    if o.kind == Done then e
    else if o.kind == (if zero then Loop1 else Loop2) && o.mate >= 0 then e.(pc := o.mate + 1)
    else e.(pc := e.pc + 1)
  }

  /** Where the next instruction of the program comes from. */
  lemma PartnerSpot(s: seq<Op>, pc: nat, zero: bool)
    requires Accepted(s) && pc < |WrittenOut(s)|
    ensures 0 < NextPc(EgoProgram(s), pc, zero) <= |WrittenOut(s)|
    ensures var c, d := WrittenOut(s)[pc], WrittenOut(s)[NextPc(EgoProgram(s), pc, zero) - 1];
            && d.turns == c.turns && c.ip < |s|
            && d.ip == if s[c.ip].kind == (if zero then Loop1 else Loop2) then s[c.ip].mate else c.ip
  {
    var t := AsRun(s);
    SpotKind(s, pc);
    AsRunFormed(s);
    WholeClosed(t);
    CopiesExpand(t, 0, |s| - 1, []);
    ProgramBalanced(t);
    MatchingPartner(t, WrittenOut(s), pc);
  }

  /** A step keeps the interpreter and its program at the same point, also when a jump leads from one half
      of a paren into the other with its counter untouched. */
  lemma EgoTurnInStep(s: seq<Op>, e: Ego, pc: nat, zero: bool)
    requires Accepted(s) && AtSpot(s, e, pc)
    ensures e.pc < |s| && EgoInStep(s, EgoTurn(s, e, zero), NextPc(EgoProgram(s), pc, zero))
  {
    SpotKind(s, pc);
    if pc == |WrittenOut(s)| {
      assert EgoSteps(s, e, 0) == e;
    } else {
      PartnerSpot(s, pc, zero);
      assert BracketAt(s, Brackets(s), e.pc);
      GoesOn(s, EgoTurn(s, e, zero), NextPc(EgoProgram(s), pc, zero) - 1);
    }
  }

  /** From `e` the interpreter executes the instructions `kinds`, one for each answer. */
  ghost predicate EgoEmits(s: seq<Op>, e: Ego, answers: seq<bool>, kinds: seq<Kind>)
    requires Linked(s)
    decreases |answers|
  {
    if answers == [] then kinds == []
    else kinds != [] && exists n ::
      && Executes(s, EgoSteps(s, e, n), kinds[0])
      && EgoEmits(s, EgoTurn(s, EgoSteps(s, e, n), answers[0]), answers[1..], kinds[1..])
  }

  /** The next instruction is a `k`. */
  predicate Executes(s: seq<Op>, d: Ego, k: Kind)
  {
    d.pc < |s| && Costed(s[d.pc].kind) && s[d.pc].kind == k
  }

  /** An instruction that takes a cycle is no repeat instruction. */
  lemma {:induction false} StaysSettled(s: seq<Op>, e: Ego, n: nat)
    requires Linked(s) && (e.pc < |s| ==> Costed(s[e.pc].kind))
    ensures EgoSteps(s, e, n) == e
    decreases n
  {
    if n > 0 { StaysSettled(s, e, n - 1); }
  }

  /** Repeat instructions lead to one instruction only. */
  lemma EgoSettlesOnce(s: seq<Op>, e: Ego, m: nat, n: nat)
    requires Linked(s)
    requires var c, d := EgoSteps(s, e, m), EgoSteps(s, e, n);
             c.pc < |s| && Costed(s[c.pc].kind) && d.pc < |s| && Costed(s[d.pc].kind)
    ensures EgoSteps(s, e, m) == EgoSteps(s, e, n)
  {
    if m <= n {
      EgoStepsAppend(s, e, m, n - m);
      StaysSettled(s, EgoSteps(s, e, m), n - m);
    } else {
      EgoStepsAppend(s, e, n, m - n);
      StaysSettled(s, EgoSteps(s, e, n), m - n);
    }
  }

  /** What the interpreter executes is determined by the answers. */
  lemma {:induction false} EgoEmitsOnce(s: seq<Op>, e: Ego, answers: seq<bool>, ks: seq<Kind>, ls: seq<Kind>)
    requires Linked(s) && EgoEmits(s, e, answers, ks) && EgoEmits(s, e, answers, ls)
    ensures ks == ls
    decreases |answers|
  {
    if answers != [] {
      var m: nat :| Executes(s, EgoSteps(s, e, m), ks[0])
                    && EgoEmits(s, EgoTurn(s, EgoSteps(s, e, m), answers[0]), answers[1..], ks[1..]);
      var n: nat :| Executes(s, EgoSteps(s, e, n), ls[0])
                    && EgoEmits(s, EgoTurn(s, EgoSteps(s, e, n), answers[0]), answers[1..], ls[1..]);
      EgoSettlesOnce(s, e, m, n);
      EgoEmitsOnce(s, EgoTurn(s, EgoSteps(s, e, m), answers[0]), answers[1..], ks[1..], ls[1..]);
      assert ks == [ks[0]] + ks[1..] && ls == [ls[0]] + ls[1..];
    }
  }

  /** For all answers about the tested cells, the interpreter executes exactly the instructions of its
      program, whatever the counts. */
  lemma EgoRunsProgram(s: seq<Op>, iter: seq<int>, answers: seq<bool>)
    requires Accepted(s) && |iter| == |s|
    ensures EgoEmits(s, Ego(0, iter), answers, FlatTrace(EgoProgram(s), 0, answers))
  {
    EgoStarts(s, iter);
    EgoEmitsFrom(s, Ego(0, iter), 0, answers);
  }

  lemma {:induction false} EgoEmitsFrom(s: seq<Op>, e: Ego, pc: nat, answers: seq<bool>)
    requires Accepted(s) && EgoInStep(s, e, pc)
    ensures EgoEmits(s, e, answers, FlatTrace(EgoProgram(s), pc, answers))
    decreases |answers|
  {
    if answers != [] {
      var n: nat :| AtSpot(s, EgoSteps(s, e, n), pc);
      var d := EgoSteps(s, e, n);
      var pc' := NextPc(EgoProgram(s), pc, answers[0]);
      SpotKind(s, pc);
      EgoTurnInStep(s, d, pc, answers[0]);
      EgoEmitsFrom(s, EgoTurn(s, d, answers[0]), pc', answers[1..]);
      var ks := FlatTrace(EgoProgram(s), pc, answers);
      assert ks[1..] == FlatTrace(EgoProgram(s), pc', answers[1..]);
      assert EgoSteps(s, e, n) == d;
    }
  }

  /** The engines and the interpreter agree: `m` and `e` are the same tokens, linked by the engines and
      by the interpreter, and `s` is what the rest of the engines' parser makes of `m`. */
  lemma EnginesAgree(m: seq<Op>, s: seq<Op>, e: seq<Op>, r: int, iter: seq<int>, answers: seq<bool>)
    requires Linked(m) && EndsDone(m) && SameTexts(m, e) && Accepted(e) && |iter| == |e|
    requires WellFormed(s) && Program(s) == Program(m) && EgoProgram(e) == Program(e)
    ensures Emits(s, Config(0, [r]), answers, FlatTrace(Program(m), 0, answers))
    ensures EgoEmits(e, Ego(0, iter), answers, FlatTrace(Program(m), 0, answers))
  {
    CompactRunsExpanded(s, r, answers);
    EgoRunsProgram(e, iter, answers);
    SameProgram(m, e);
  }
}
