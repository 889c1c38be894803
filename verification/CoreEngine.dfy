/** The engine: matches on all tape lengths, in both polarities, on threaded code. */
module CoreEngine {
  import opened Ops
  import opened Links
  import opened Loops
  import opened Expansion
  import opened RepMachine
  import opened Trace
  import opened ThreadedCode
  import opened ThreadRun
  import opened Arena
  import opened ArenaLaws
  import opened Flip

  const MINTAPE := 10
  const MAXTAPE := 30

  /** One cycle of a run. */
  lemma EngineRun(a: seq<Kind>, b: seq<Kind>, rule: Rule, st: State, cycles: nat, over: bool, score: int, next: State)
    requires Running(st) && rule == Engine(a, b)
    requires EngineCycle(a, b, st, cycles) == if over then Over(score) else On(next)
    ensures Run(rule, st, cycles + 1) == if over then score else Run(rule, next, cycles)
  {
  }

  /** Where the results of a polarity are kept. */
  function Row(pol: Polarity): int
  {
    if pol == Sieve then 0 else 1
  }

  /** The last word is the token of `Done`, and no other one is. */
  ghost predicate EndsWithDone(code: seq<Word>)
  {
    code != [] && forall i :: 0 <= i < |code| ==> (code[i] == Xt(Done) <==> i == |code| - 1)
  }

  lemma ThreadedEnds(s: seq<Op>)
    requires EndsDone(s)
    ensures EndsWithDone(Threaded(s))
  {
    TokenAt(s, |s| - 1);
    forall i: nat | i < |Threaded(s)|
      ensures Threaded(s)[i] == Xt(Done) <==> i == |Threaded(s)| - 1
    {
      DoneLast(s, i);
    }
  }

  class Core {
    const tape: array<Cell>
    const scores: array2<int>
    const a: Thread
    const b: Thread

    constructor ()
      ensures Valid() && fresh(tape) && fresh(scores) && fresh(a) && fresh(b) && fresh(a.stack) && fresh(b.stack)
    {
      tape := new Cell[MAXTAPE];
      scores := new int[2, MAXTAPE + 1];
      a := new Thread();
      b := new Thread();
    }

    ghost predicate Valid()
      reads this, a, b
    {
      && tape.Length == MAXTAPE && scores.Length0 == 2 && scores.Length1 == MAXTAPE + 1
      && a != b && a.stack != b.stack && (tape as object) != a.stack && (tape as object) != b.stack
      && a.Valid() && b.Valid()
    }

    /** What an instruction does to the tape and the pointer; `dir` is the way to the other flag. */
    method Act(k: Kind, start: int, size: nat, dir: int) returns (ptr: int)
      requires size <= tape.Length && 0 <= start < size
      modifies tape
      ensures tape[..size] == Changed(old(tape[..size]), start, Change(k)) && tape[size..] == old(tape[size..])
      ensures ptr == start + dir * Move(k) && (Move(k) != 0 ==> tape[..] == old(tape[..]))
    {
      ptr := start;
      var cell: int := tape[ptr];
      if k == Left {
        ptr := ptr - dir;
      } else if k == Right {
        ptr := ptr + dir;
      } else if k == Inc {
        tape[ptr] := Wrap(cell + 1);
      } else if k == Dec {
        tape[ptr] := Wrap(cell - 1);
      }
    }

    /** The left program's part of a cycle. */
    method LeftTurn(code: array<Word>, size: nat, start: int, count: nat, ghost s: seq<Op>, ghost r: int, ghost st: State)
      returns (ptr: int, deaths: nat)
      requires Valid() && size <= MAXTAPE && code[..] == Threaded(s) && Tracks(s, r, a.Now(), st.pcA)
      requires Running(st) && st.tape == tape[..size] && st.ptrA == start && st.left == count
      modifies tape, a, a.stack
      ensures Valid() && tape[..size] == ActA(Program(s), st).tape && tape[size..] == old(tape[size..])
      ensures ptr == ActA(Program(s), st).ptrA && deaths == ActA(Program(s), st).left
      ensures OnTape(st.tape, ptr) ==> Tracks(s, r, a.Now(), ActA(Program(s), st).pcA)
    {
      a.Settle(code, s, r, st.pcA);
      var zero := tape[start] == 0;
      ptr := Act(code[a.ip].kind, start, size, 1);
      deaths := count;
      if 0 <= ptr < size {
        a.Turn(code, zero, s, r, st.pcA);
      } else {
        deaths := 2;
      }
    }

    /** The right program's part, with its cell as it was at the start of the cycle. */
    method RightTurn(code: array<Word>, size: nat, start: int, cache: Cell, ghost s: seq<Op>, ghost r: int, ghost st: State)
      returns (ptr: int)
      requires Valid() && size <= MAXTAPE && code[..] == Threaded(s) && Tracks(s, r, b.Now(), st.pcB)
      requires OnTape(st.tape, st.ptrB) && st.tape == tape[..size] && st.ptrB == start
      modifies tape, b, b.stack
      ensures Valid() && tape[..size] == ActB(Program(s), st, cache).tape && tape[size..] == old(tape[size..])
      ensures ptr == ActB(Program(s), st, cache).ptrB
      ensures OnTape(st.tape, ptr) ==> Tracks(s, r, b.Now(), ActB(Program(s), st, cache).pcB)
    {
      b.Settle(code, s, r, st.pcB);
      ptr := Act(code[b.ip].kind, start, size, -1);
      if 0 <= ptr < size { b.Turn(code, cache == 0, s, r, st.pcB); }
    }

    /** Clears the tape and sets both flags. */
    method Reset(size: nat)
      requires 1 <= size <= MAXTAPE == tape.Length
      modifies tape
      ensures tape[..size] == Initial(size).tape && tape[size..] == old(tape[size..])
    {
      for i := 0 to size
        invariant forall k :: 0 <= k < i ==> tape[k] == 0
        invariant tape[size..] == old(tape[size..])
      {
        tape[i] := 0;
      }
      tape[0], tape[size - 1] := 128, 128;
    }

    /** The checks at the end of a cycle. */
    method EndCycle(size: nat, countA: nat, countB: nat, cycles: nat, ghost st: State)
      returns (deathsA: nat, deathsB: nat, over: bool, score: int)
      requires 0 < size <= tape.Length && st.tape == tape[..size] && st.left == countA && st.right == countB
      ensures EndOfCycle(st, cycles) == if over then Over(score) else On(st.(left := deathsA, right := deathsB))
      ensures !over ==> score == 0 && cycles > 0 && deathsA <= 1 && deathsB <= 1
    {
      deathsA, deathsB, over, score := countA, countB, true, 0;
      if tape[0] == 0 { deathsA := deathsA + 1; } else if deathsA == 1 { deathsA := 0; }
      if tape[size - 1] == 0 { deathsB := deathsB + 1; } else if deathsB == 1 { deathsB := 0; }
      if deathsA >= 2 && deathsB >= 2 {
        return;
      } else if deathsA >= 2 {
        score := score - 1;
        return;
      } else if deathsB >= 2 {
        score := score + 1;
        return;
      }
      over := cycles == 0;
    }

    /** A match stands at `st`. */
    ghost predicate Playing(codeA: array<Word>, codeB: array<Word>, size: nat,
                            sA: seq<Op>, sB: seq<Op>, rA: int, rB: int, st: State)
      reads this, a, b, a.stack, b.stack, tape, codeA, codeB
    {
      && Valid() && size <= MAXTAPE && codeA[..] == Threaded(sA) && codeB[..] == Threaded(sB)
      && Tracks(sA, rA, a.Now(), st.pcA) && Tracks(sB, rB, b.Now(), st.pcB)
      && Running(st) && st.tape == tape[..size]
    }

    /** Both programs' parts of a cycle. */
    method Turns(codeA: array<Word>, codeB: array<Word>, size: nat, startA: int, startB: int, countA: nat, cache: Cell,
                 ghost sA: seq<Op>, ghost sB: seq<Op>, ghost rA: int, ghost rB: int, ghost st: State)
      returns (ptrA: int, ptrB: int, deathsA: nat, ghost next: State)
      requires Playing(codeA, codeB, size, sA, sB, rA, rB, st)
      requires st.ptrA == startA && st.ptrB == startB && st.left == countA
      modifies tape, a, a.stack, b, b.stack
      ensures next == ActB(Program(sB), ActA(Program(sA), st), cache)
      ensures Valid() && tape[..size] == next.tape && tape[size..] == old(tape[size..])
      ensures ptrA == next.ptrA && ptrB == next.ptrB && deathsA == next.left
      ensures OnTape(st.tape, ptrA) ==> Tracks(sA, rA, a.Now(), next.pcA)
      ensures OnTape(st.tape, ptrB) ==> Tracks(sB, rB, b.Now(), next.pcB)
    {
      ghost var st1 := ActA(Program(sA), st);
      next := ActB(Program(sB), st1, cache);
      ptrA, deathsA := LeftTurn(codeA, size, startA, countA, sA, rA, st);
      ptrB := RightTurn(codeB, size, startB, cache, sB, rB, st1);
    }

    /** One cycle, after which `cycles` remain. */
    method Cycle(codeA: array<Word>, codeB: array<Word>, size: nat, startA: int, startB: int, countA: nat, countB: nat,
                 cache: Cell, cycles: nat, ghost sA: seq<Op>, ghost sB: seq<Op>, ghost rA: int, ghost rB: int, ghost st: State)
      returns (ptrA: int, ptrB: int, deathsA: nat, deathsB: nat, over: bool, score: int, ghost next: State)
      requires Playing(codeA, codeB, size, sA, sB, rA, rB, st) && st.ptrA == startA && st.ptrB == startB
      requires st.left == countA && st.right == countB && st.tape[startB] == cache
      modifies tape, a, a.stack, b, b.stack
      ensures Valid() && tape[size..] == old(tape[size..])
      ensures EngineCycle(Program(sA), Program(sB), st, cycles) == if over then Over(score) else On(next)
      ensures !over ==> score == 0 && cycles > 0 && Playing(codeA, codeB, size, sA, sB, rA, rB, next)
      ensures !over ==> next.ptrA == ptrA && next.ptrB == ptrB && next.left == deathsA && next.right == deathsB
    {
      over, score := true, 0;
      deathsB := countB;
      ptrA, ptrB, deathsA, next := Turns(codeA, codeB, size, startA, startB, countA, cache, sA, sB, rA, rB, st);
      if ptrB < 0 || ptrB >= size {
        if tape[0] == 0 { deathsA := deathsA + 1; }
        if deathsA >= 2 { return; }
        score := score + 1;
        return;
      }
      deathsA, deathsB, over, score := EndCycle(size, deathsA, deathsB, cycles, next);
      next := next.(left := deathsA, right := deathsB);
    }

    /** Everything but counters and stacks is as new. */
    method Begin(size: nat, ghost sA: seq<Op>, ghost sB: seq<Op>) returns (ghost st: State)
      requires Valid() && 1 <= size <= MAXTAPE && WellFormed(sA) && WellFormed(sB)
      modifies tape, a`ip, a`top, b`ip, b`top
      ensures Valid() && tape[size..] == old(tape[size..])
      ensures st == Initial(size) && st.tape == tape[..size]
      ensures Tracks(sA, old(a.rep), a.Now(), 0) && Tracks(sB, old(b.rep), b.Now(), 0)
    {
      st := Initial(size);
      Reset(size);
      a.Start();
      b.Start();
      StartTracks(sA, a.rep);
      StartTracks(sB, b.rep);
    }

    /** One match. `rA` and `rB` are what the running counters held before it. */
    method Match(codeA: array<Word>, codeB: array<Word>, size: nat, ghost sA: seq<Op>, ghost sB: seq<Op>)
      returns (score: int)
      requires Valid() && MINTAPE <= size <= MAXTAPE
      requires WellFormed(sA) && WellFormed(sB) && codeA[..] == Threaded(sA) && codeB[..] == Threaded(sB)
      modifies tape, a, a.stack, b, b.stack
      ensures Valid() && tape[size..] == old(tape[size..])
      ensures score == EngineScore(Program(sA), Program(sB), size)
    {
      ghost var pA, pB := Program(sA), Program(sB);
      ghost var rA, rB := a.rep, b.rep;
      ghost var rule, goal := Engine(pA, pB), EngineScore(pA, pB, size);
      ghost var st := Begin(size, sA, sB);
      var ptrA: int, ptrB: int := 0, size - 1;
      var deathsA: nat, deathsB: nat := 0, 0;
      var cache: Cell := 128;
      var cycles: nat := MAXCYCLES;
      score := 0;
      while true
        invariant Playing(codeA, codeB, size, sA, sB, rA, rB, st) && tape[size..] == old(tape[size..])
        invariant st.ptrA == ptrA && st.ptrB == ptrB && st.left == deathsA && st.right == deathsB
        invariant cache == st.tape[ptrB] && score == 0
        invariant 0 < cycles && Run(rule, st, cycles) == goal
        decreases cycles
      {
        cycles := cycles - 1;
        ghost var was := st;
        var over: bool;
        ptrA, ptrB, deathsA, deathsB, over, score, st :=
          Cycle(codeA, codeB, size, ptrA, ptrB, deathsA, deathsB, cache, cycles, sA, sB, rA, rB, st);
        EngineRun(pA, pB, rule, was, cycles, over, score, st);
        if over { return; }
        cache := tape[ptrB];
      }
    }

    /** Swaps `+` and `-` in the code, in place, up to the end of the program. */
    method FlipCode(code: array<Word>)
      requires EndsWithDone(code[..])
      modifies code
      ensures code[..] == FlippedWords(old(code[..]))
    {
      var op: nat := 0;
      while code[op] != Xt(Done)
        invariant op < code.Length
        invariant forall i :: 0 <= i < op ==> code[i] == FlippedWord(old(code[i]))
        invariant forall i :: op <= i < code.Length ==> code[i] == old(code[i])
        decreases code.Length - op
      {
        if code[op] == Xt(Inc) {
          code[op] := Xt(Dec);
        } else if code[op] == Xt(Dec) {
          code[op] := Xt(Inc);
        }
        op := op + 1;
      }
    }

    /** The results in one polarity. */
    ghost predicate Scored(pA: seq<Kind>, pB: seq<Kind>, pol: Polarity)
      requires Valid()
      reads this, a, b, scores
    {
      forall n :: 10 <= n <= 30 ==> scores[Row(pol), n] == JoustScore(pA, pB, pol, n)
    }

    /** One match, in polarity `pol`. */
    method MatchIn(codeA: array<Word>, codeB: array<Word>, size: nat, pol: Polarity,
                   ghost sA: seq<Op>, ghost sB: seq<Op>, ghost pA: seq<Kind>, ghost pB: seq<Kind>) returns (score: int)
      requires Valid() && MINTAPE <= size <= MAXTAPE
      requires WellFormed(sA) && WellFormed(sB) && codeA[..] == Threaded(sA) && codeB[..] == Threaded(sB)
      requires pA == Program(sA) && Program(sB) == Polarized(pB, pol)
      modifies tape, a, a.stack, b, b.stack
      ensures Valid() && score == JoustScore(pA, pB, pol, size)
    {
      EngineIsJoust(pA, pB, pol, size);
      score := Match(codeA, codeB, size, sA, sB);
    }

    /** The matches on all tape lengths, in one polarity, with the right program flipped for kettle. */
    method AllLengths(codeA: array<Word>, codeB: array<Word>, pol: Polarity,
                      ghost sA: seq<Op>, ghost sB: seq<Op>, ghost pB: seq<Kind>)
      requires Valid()
      requires WellFormed(sA) && WellFormed(sB) && codeA[..] == Threaded(sA) && codeB[..] == Threaded(sB)
      requires Program(sB) == Polarized(pB, pol)
      modifies tape, scores, a, a.stack, b, b.stack
      ensures Valid() && Scored(Program(sA), pB, pol)
      ensures forall r, n :: 0 <= r < 2 && 0 <= n <= MAXTAPE && r != Row(pol) ==> scores[r, n] == old(scores[r, n])
    {
      ghost var pA := Program(sA);
      for n := MINTAPE to MAXTAPE + 1
        invariant Valid() && codeA[..] == Threaded(sA) && codeB[..] == Threaded(sB)
        invariant forall i :: MINTAPE <= i < n ==> scores[Row(pol), i] == JoustScore(pA, pB, pol, i)
        invariant forall r, i :: 0 <= r < 2 && 0 <= i <= MAXTAPE && r != Row(pol) ==> scores[r, i] == old(scores[r, i])
      {
        var score := MatchIn(codeA, codeB, n, pol, sA, sB, pA, pB);
        scores[Row(pol), n] := score;
      }
    }

    /** All matches: first sieve, then kettle with the right program flipped in place. Nothing that an
        earlier match leaves in counters, stacks or tape has an influence. */
    method RunAll(codeA: array<Word>, codeB: array<Word>, ghost sA: seq<Op>, ghost sB: seq<Op>)
      requires Valid() && codeA != codeB
      requires WellFormed(sA) && WellFormed(sB) && codeA[..] == Threaded(sA) && codeB[..] == Threaded(sB)
      modifies tape, scores, a, a.stack, b, b.stack, codeB
      ensures Valid() && Scored(Program(sA), Program(sB), Sieve) && Scored(Program(sA), Program(sB), Kettle)
      ensures WellFormed(FlippedOps(sB)) && codeB[..] == Threaded(FlippedOps(sB))
    {
      ghost var f := FlippedOps(sB);
      FlippedWellFormed(sB);
      FlippedProgram(sB);
      AllLengths(codeA, codeB, Sieve, sA, sB, Program(sB));
      ThreadedEnds(sB);
      FlipCode(codeB);
      FlipCommutes(sB);
      AllLengths(codeA, codeB, Kettle, sA, f, Program(sB));
    }
  }
}
