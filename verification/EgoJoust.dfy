/** The reference interpreter as it runs: both programs look at the same tape, then both changes are made. */
module EgoJoust {
  import opened Ops
  import opened Links
  import opened Loops
  import opened Expansion
  import opened Trace
  import opened Counters
  import opened EgoRun
  import opened Arena

  class Fighter {
    const prog: array<Op>
    /** The counter of the paren that begins at each position. */
    const iter: array<int>
    var pc: nat

    constructor (ops: array<Op>)
      ensures Valid() && prog == ops && fresh(iter) && pc == 0
    {
      prog := ops;
      iter := new int[ops.Length];
      pc := 0;
    }

    predicate Valid()
    {
      prog.Length == iter.Length
    }

    function Now(): Ego
      reads this, iter
    {
      Ego(pc, iter[..])
    }

    /** One `(`, `{`, `}` or `)`. */
    method RepOp(ghost s: seq<Op>)
      requires Valid() && prog[..] == s && Linked(s) && pc < |s| && !Costed(s[pc].kind)
      modifies this, iter
      ensures Now() == EgoStep(s, old(Now()))
    {
      var cmd := prog[pc];
      assert cmd == s[pc] && LinkedAt(s, pc);
      if cmd.kind == Rep1 || cmd.kind == IRep1 {
        iter[pc] := 0;
        if cmd.count == 0 { pc := if cmd.kind == Rep1 then cmd.mate else cmd.inner; }
      } else if cmd.kind == IRep2 {
        iter[cmd.inner] := iter[cmd.inner] - 1;
        if iter[cmd.inner] >= 0 { pc := cmd.mate; }
      } else if cmd.kind == Rep2 || cmd.kind == Inner1 {
        iter[cmd.mate] := iter[cmd.mate] + 1;
        if iter[cmd.mate] < prog[cmd.mate].count { pc := cmd.mate; }
      } else {
        assert LinkedAt(s, cmd.inner);
        var start := prog[cmd.inner].mate;
        iter[start] := prog[start].count - 1;
      }
      pc := pc + 1;
    }

    /** Runs repeat instructions up to one that takes a cycle. */
    method Settle(ghost s: seq<Op>, ghost at: nat)
      requires Valid() && prog[..] == s && Accepted(s) && EgoInStep(s, Now(), at)
      modifies this, iter
      ensures AtSpot(s, Now(), at)
    {
      ghost var n: nat :| AtSpot(s, EgoSteps(s, Now(), n), at);
      SpotKind(s, at);
      while pc < prog.Length && !Costed(prog[pc].kind)
        invariant AtSpot(s, EgoSteps(s, Now(), n), at)
        decreases n
      {
        RepOp(s);
        n := n - 1;
      }
      StaysSettled(s, Now(), n);
    }

    /** Goes on after an instruction that takes a cycle. */
    method Advance(zero: bool, ghost s: seq<Op>)
      requires Valid() && prog[..] == s && pc < |s| && (IsLoop(s[pc].kind) ==> s[pc].mate >= 0)
      modifies this`pc
      ensures Now() == EgoTurn(s, old(Now()), zero)
    {
      var cmd := prog[pc];
      if cmd.kind == Loop1 {
        if zero { pc := cmd.mate; }
      } else if cmd.kind == Loop2 {
        if !zero { pc := cmd.mate; }
      }
      if cmd.kind != Done { pc := pc + 1; }
    }

    /** One cycle of the program: the change it wants to make, and where its tape pointer goes. */
    method Step(tape: array<Cell>, tp: int, dir: int, pol: Polarity, ghost s: seq<Op>, ghost at: nat)
      returns (ch: int, tp': int)
      requires Valid() && prog[..] == s && Accepted(s) && EgoInStep(s, Now(), at) && 0 <= tp < tape.Length
      modifies this, iter
      ensures ch == Signed(pol, Change(KindAt(EgoProgram(s), at))) && tp' == tp + dir * Move(KindAt(EgoProgram(s), at))
      ensures EgoInStep(s, Now(), NextPc(EgoProgram(s), at, tape[tp] == 0))
    {
      Settle(s, at);
      var zero := tape[tp] == 0;
      SpotKind(s, at);
      EgoTurnInStep(s, Now(), at, zero);
      assert BracketAt(s, Brackets(s), pc);
      ch, tp' := Wishes(prog[pc].kind, tp, dir, pol);
      Advance(zero, s);
    }
  }

  /** What an instruction wants to change, and where it moves. */
  method Wishes(k: Kind, tp: int, dir: int, pol: Polarity) returns (ch: int, tp': int)
    ensures ch == Signed(pol, Change(k)) && tp' == tp + dir * Move(k)
  {
    ch, tp' := 0, tp;
    if k == Left {
      tp' := tp - dir;
    } else if k == Right {
      tp' := tp + dir;
    } else if k == Dec {
      ch := Signed(pol, -1);
    } else if k == Inc {
      ch := Signed(pol, 1);
    }
  }

  /** Adds to the cell under a pointer, if there is one. */
  method Apply(tape: array<Cell>, tp: int, ch: int)
    requires -1 <= ch <= 1
    modifies tape
    ensures tape[..] == Changed(old(tape[..]), tp, ch)
  {
    if 0 <= tp < tape.Length {
      var x: int := tape[tp];
      x := x + ch;
      if x < 0 { x := x + 256; }
      if x >= 256 { x := x - 256; }
      tape[tp] := x;
    }
  }

  /** The tape, with both flags set. */
  method NewTape(tlen: nat) returns (tape: array<Cell>)
    requires tlen >= 2
    ensures fresh(tape) && tape[..] == Initial(tlen).tape
  {
    tape := new Cell[tlen];
    for i := 1 to tlen - 1
      invariant forall k :: 1 <= k < i ==> tape[k] == 0
    {
      tape[i] := 0;
    }
    tape[0], tape[tlen - 1] := 128, 128;
  }

  /** The flags after a cycle: consecutive zero cycles, or 3 after a fall. */
  method Flags(tape: array<Cell>, ltp: int, rtp: int, lcount: nat, rcount: nat) returns (lflag: nat, rflag: nat)
    requires tape.Length > 0
    ensures lflag == Flag(lcount, tape[0] == 0, !OnTape(tape[..], ltp))
    ensures rflag == Flag(rcount, tape[tape.Length - 1] == 0, !OnTape(tape[..], rtp))
  {
    lflag := if tape[0] == 0 then lcount + 1 else 0;
    rflag := if tape[tape.Length - 1] == 0 then rcount + 1 else 0;
    if ltp < 0 || ltp >= tape.Length { lflag := 3; }
    if rtp < 0 || rtp >= tape.Length { rflag := 3; }
  }

  /** The simultaneous cycle, put together from its parts. */
  lemma CycleParts(pL: seq<Kind>, pR: seq<Kind>, pol: Polarity, st: State, step: nat, next: State, kL: Kind, kR: Kind)
    requires Running(st) && kL == KindAt(pL, st.pcA) && kR == KindAt(pR, st.pcB)
    requires next.ptrA == st.ptrA + Move(kL) && next.ptrB == st.ptrB - Move(kR)
    requires next.tape == Changed(Changed(st.tape, next.ptrA, Change(kL)), next.ptrB, Signed(pol, Change(kR)))
    requires next.left == Flag(st.left, next.tape[0] == 0, !OnTape(next.tape, next.ptrA))
    requires next.right == Flag(st.right, next.tape[|next.tape| - 1] == 0, !OnTape(next.tape, next.ptrB))
    requires next.pcA == NextPc(pL, st.pcA, st.tape[st.ptrA] == 0) && next.pcB == NextPc(pR, st.pcB, st.tape[st.ptrB] == 0)
    ensures JoustCycle(pL, pR, pol, st, step)
         == if step >= MAXCYCLES || next.left >= 2 || next.right >= 2 then Over(Verdict(next.left, next.right)) else On(next)
  {
  }

  /** Both programs stand at `st`. */
  ghost predicate Fighting(left: Fighter, right: Fighter, tape: array<Cell>, sL: seq<Op>, sR: seq<Op>, st: State)
    reads left, left.iter, left.prog, right, right.iter, right.prog, tape
  {
    && left.Valid() && right.Valid() && left != right && left.iter != right.iter
    && (tape as object) != left.iter && (tape as object) != right.iter
    && left.prog[..] == sL && right.prog[..] == sR && Accepted(sL) && Accepted(sR)
    && EgoInStep(sL, left.Now(), st.pcA) && EgoInStep(sR, right.Now(), st.pcB)
    && Running(st) && st.tape == tape[..]
  }

  /** Both programs step, looking at the same tape; then both changes are made. */
  method BothStep(left: Fighter, right: Fighter, tape: array<Cell>, ltp: int, rtp: int, pol: Polarity,
                  ghost sL: seq<Op>, ghost sR: seq<Op>, ghost st: State, ghost kL: Kind, ghost kR: Kind)
    returns (ltp': int, rtp': int)
    requires Fighting(left, right, tape, sL, sR, st) && ltp == st.ptrA && rtp == st.ptrB
    requires kL == KindAt(EgoProgram(sL), st.pcA) && kR == KindAt(EgoProgram(sR), st.pcB)
    modifies left, left.iter, right, right.iter, tape
    ensures ltp' == ltp + Move(kL) && rtp' == rtp - Move(kR)
    ensures tape[..] == Changed(Changed(old(tape[..]), ltp', Change(kL)), rtp', Signed(pol, Change(kR)))
    ensures EgoInStep(sL, left.Now(), NextPc(EgoProgram(sL), st.pcA, old(tape[ltp]) == 0))
    ensures EgoInStep(sR, right.Now(), NextPc(EgoProgram(sR), st.pcB, old(tape[rtp]) == 0))
  {
    var lchange, rchange;
    lchange, ltp' := left.Step(tape, ltp, 1, Sieve, sL, st.pcA);
    rchange, rtp' := right.Step(tape, rtp, -1, pol, sR, st.pcB);
    Apply(tape, ltp', lchange);
    Apply(tape, rtp', rchange);
  }

  /** One cycle; `over` tells that the match ends with it. */
  method Cycle(left: Fighter, right: Fighter, tape: array<Cell>, ltp: int, rtp: int, lcount: nat, rcount: nat, step: nat,
               pol: Polarity, ghost sL: seq<Op>, ghost sR: seq<Op>, ghost st: State)
    returns (ltp': int, rtp': int, lflag: nat, rflag: nat, over: bool, ghost next: State)
    requires Fighting(left, right, tape, sL, sR, st)
    requires st.ptrA == ltp && st.ptrB == rtp && st.left == lcount && st.right == rcount
    modifies left, left.iter, right, right.iter, tape
    ensures JoustCycle(EgoProgram(sL), EgoProgram(sR), pol, st, step) == if over then Over(Verdict(lflag, rflag)) else On(next)
    ensures !over ==> EgoInStep(sL, left.Now(), next.pcA) && EgoInStep(sR, right.Now(), next.pcB)
    ensures !over ==> next.tape == tape[..] && next.ptrA == ltp' && next.ptrB == rtp' && next.left == lflag && next.right == rflag
  {
    ghost var pL, pR := EgoProgram(sL), EgoProgram(sR);
    ghost var kL, kR := KindAt(pL, st.pcA), KindAt(pR, st.pcB);
    ltp', rtp' := BothStep(left, right, tape, ltp, rtp, pol, sL, sR, st, kL, kR);
    lflag, rflag := Flags(tape, ltp', rtp', lcount, rcount);
    over := step >= MAXCYCLES || lflag >= 2 || rflag >= 2;
    next := State(NextPc(pL, st.pcA, st.tape[ltp] == 0), NextPc(pR, st.pcB, st.tape[rtp] == 0),
                  ltp', rtp', tape[..], lflag, rflag);
    CycleParts(pL, pR, pol, st, step, next, kL, kR);
  }

  /** One cycle of a run. */
  lemma JoustRun(a: seq<Kind>, b: seq<Kind>, pol: Polarity, rule: Rule, st: State, cycles: nat, over: bool, score: int, next: State)
    requires Running(st) && rule == Joust(a, b, pol) && cycles < MAXCYCLES
    requires JoustCycle(a, b, pol, st, MAXCYCLES - cycles) == if over then Over(score) else On(next)
    ensures Run(rule, st, cycles + 1) == if over then score else Run(rule, next, cycles)
    ensures !over ==> Running(next) && |next.tape| == |st.tape|
  {
    JoustKeepsRunning(a, b, pol, st, MAXCYCLES - cycles);
  }

  /** A whole match. The result is 1 if the left program loses. */
  method RunJoust(left: array<Op>, right: array<Op>, pol: Polarity, tlen: nat, ghost sL: seq<Op>, ghost sR: seq<Op>)
    returns (result: int)
    requires tlen >= 2 && left[..] == sL && right[..] == sR && Accepted(sL) && Accepted(sR)
    ensures result == -JoustScore(EgoProgram(sL), EgoProgram(sR), pol, tlen)
  {
    ghost var pL, pR := EgoProgram(sL), EgoProgram(sR);
    ghost var rule, goal := Joust(pL, pR, pol), JoustScore(pL, pR, pol, tlen);
    var tape := NewTape(tlen);
    var l := new Fighter(left);
    var r := new Fighter(right);
    EgoStarts(sL, l.iter[..]);
    EgoStarts(sR, r.iter[..]);
    var ltp: int, rtp: int := 0, tlen - 1;
    var lflag: nat, rflag: nat := 0, 0;
    var step: nat := 0;
    ghost var st := Initial(tlen);
    while true
      invariant EgoInStep(sL, l.Now(), st.pcA) && EgoInStep(sR, r.Now(), st.pcB)
      invariant Running(st) && st.tape == tape[..] && st.ptrA == ltp && st.ptrB == rtp && st.left == lflag && st.right == rflag
      invariant step < MAXCYCLES && Run(rule, st, MAXCYCLES - step) == goal
      decreases MAXCYCLES - step
    {
      step := step + 1;
      ghost var was := st;
      var over: bool;
      ltp, rtp, lflag, rflag, over, st := Cycle(l, r, tape, ltp, rtp, lflag, rflag, step, pol, sL, sR, st);
      JoustRun(pL, pR, pol, rule, was, MAXCYCLES - step, over, Verdict(lflag, rflag), st);
      if over {
        if lflag >= 2 && rflag < 2 { return 1; }
        if rflag >= 2 && lflag < 2 { return -1; }
        return 0;
      }
    }
  }
}
