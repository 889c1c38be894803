/** The engine's sequential cycle is the simultaneous one, and the arena is symmetric. */
module ArenaLaws {
  import opened Ops
  import opened Trace
  import opened Matching
  import opened Arena

  // Swapping `+` and `-` leaves the control flow alone.

  lemma {:induction false} FlippedClose(code: seq<Kind>, i: nat, d: nat)
    requires i <= |code|
    ensures CloseOf(FlippedCode(code), i, d) == CloseOf(code, i, d)
    decreases |code| - i
  {
    if i < |code| {
      FlippedClose(code, i + 1, d + 1);
      FlippedClose(code, i + 1, d);
      if d > 1 { FlippedClose(code, i + 1, d - 1); }
    }
  }

  lemma {:induction false} FlippedOpen(code: seq<Kind>, i: nat, d: nat)
    requires i <= |code|
    ensures OpenOf(FlippedCode(code), i, d) == OpenOf(code, i, d)
    decreases i
  {
    if i > 0 {
      FlippedOpen(code, i - 1, d + 1);
      FlippedOpen(code, i - 1, d);
      if d > 1 { FlippedOpen(code, i - 1, d - 1); }
    }
  }

  lemma FlippedNext(code: seq<Kind>, pc: nat, zero: bool)
    ensures NextPc(FlippedCode(code), pc, zero) == NextPc(code, pc, zero)
    ensures KindAt(FlippedCode(code), pc) == Flipped(KindAt(code, pc))
  {
    if pc < |code| {
      FlippedClose(code, pc + 1, 1);
      FlippedOpen(code, pc, 1);
    }
  }

  lemma FlippedTwice(code: seq<Kind>)
    ensures FlippedCode(FlippedCode(code)) == code
  {
  }

  /** The right program as the engine has it in the two halves of a tournament. */
  function Polarized(b: seq<Kind>, pol: Polarity): seq<Kind>
  {
    if pol == Sieve then b else FlippedCode(b)
  }

  /** Adding to two cells, or twice to the same, in either order. */
  lemma ChangesCommute(tape: seq<Cell>, p: int, d: int, q: int, e: int)
    ensures Changed(Changed(tape, p, d), q, e) == Changed(Changed(tape, q, e), p, d)
  {
    if p == q && OnTape(tape, p) {
      WrapTwice(tape[p], d, e);
      WrapTwice(tape[p], e, d);
    }
  }

  lemma WrapTwice(x: int, d: int, e: int)
    ensures Wrap(Wrap(x + d) + e) == Wrap(x + d + e)
  {
  }

  lemma PolarizedStep(b: seq<Kind>, pol: Polarity, pc: nat, zero: bool)
    ensures NextPc(Polarized(b, pol), pc, zero) == NextPc(b, pc, zero)
    ensures Move(KindAt(Polarized(b, pol), pc)) == Move(KindAt(b, pc))
    ensures Change(KindAt(Polarized(b, pol), pc)) == Signed(pol, Change(KindAt(b, pc)))
  {
    FlippedNext(b, pc, zero);
  }

  /** An instruction that moves changes nothing, so it does not matter when the pointer moves. */
  lemma ChangeBeforeMove(tape: seq<Cell>, k: Kind, ptr: int, pol: Polarity, move: int)
    requires move == 0 || Change(k) == 0
    ensures Changed(tape, ptr + move, Signed(pol, Change(k))) == Changed(tape, ptr, Signed(pol, Change(k)))
  {
    if move != 0 {
      assert Changed(tape, ptr + move, 0) == tape == Changed(tape, ptr, 0);
    }
  }

  /** What both cycles come down to once both programs have acted. */
  function Settled(next: State, fellA: bool, fellB: bool, cycles: nat): Cycle
    requires next.tape != []
  {
    Decided(next, Flag(next.left, next.tape[0] == 0, fellA), Flag(next.right, next.tape[|next.tape| - 1] == 0, fellB), cycles)
  }

  function Decided(next: State, left: nat, right: nat, cycles: nat): Cycle
  {
    if cycles == 0 || left >= 2 || right >= 2 then Over(Verdict(left, right))
    else On(next.(left := left, right := right))
  }

  /** The state after both programs have acted, before the flags are looked at. */
  function Acted(a: seq<Kind>, b: seq<Kind>, pol: Polarity, st: State): State
    requires Running(st)
  {
    var ka, kb := KindAt(a, st.pcA), KindAt(b, st.pcB);
    var tape := Changed(Changed(st.tape, st.ptrA, Change(ka)), st.ptrB, Signed(pol, Change(kb)));
    State(NextPc(a, st.pcA, st.tape[st.ptrA] == 0), NextPc(b, st.pcB, st.tape[st.ptrB] == 0),
          st.ptrA + Move(ka), st.ptrB - Move(kb), tape, st.left, st.right)
  }

  lemma JoustSettles(a: seq<Kind>, b: seq<Kind>, pol: Polarity, st: State, cycles: nat)
    requires Running(st) && cycles < MAXCYCLES
    ensures var next := Acted(a, b, pol, st);
            JoustCycle(a, b, pol, st, MAXCYCLES - cycles)
            == Settled(next, !OnTape(st.tape, next.ptrA), !OnTape(st.tape, next.ptrB), cycles)
  {
    var ka, kb := KindAt(a, st.pcA), KindAt(b, st.pcB);
    var tape := ChangesBeforeMoves(st.tape, st.ptrA, st.ptrB, ka, kb, pol);
    assert Acted(a, b, pol, st).tape == tape;
  }

  lemma ChangesBeforeMoves(before: seq<Cell>, ptrA: int, ptrB: int, ka: Kind, kb: Kind, pol: Polarity) returns (tape: seq<Cell>)
    ensures tape == Changed(Changed(before, ptrA, Change(ka)), ptrB, Signed(pol, Change(kb)))
    ensures tape == Changed(Changed(before, ptrA + Move(ka), Change(ka)), ptrB - Move(kb), Signed(pol, Change(kb)))
    ensures |tape| == |before|
  {
    ChangeBeforeMove(before, ka, ptrA, Sieve, Move(ka));
    ChangeBeforeMove(Changed(before, ptrA, Change(ka)), kb, ptrB, pol, -Move(kb));
    tape := Changed(Changed(before, ptrA, Change(ka)), ptrB, Signed(pol, Change(kb)));
  }

  lemma EngineSettles(a: seq<Kind>, b: seq<Kind>, pol: Polarity, st: State, cycles: nat)
    requires Running(st) && cycles < MAXCYCLES
    ensures var next := Acted(a, b, pol, st);
            EngineCycle(a, Polarized(b, pol), st, cycles)
            == Settled(next, !OnTape(st.tape, next.ptrA), !OnTape(st.tape, next.ptrB), cycles)
  {
    var next := Acted(a, b, pol, st);
    var ka := KindAt(a, st.pcA);
    var cache := st.tape[st.ptrB];
    PolarizedStep(b, pol, st.pcB, cache == 0);
    var st1 := ActA(a, st);
    var st2 := ActB(Polarized(b, pol), st1, cache);
    if OnTape(st.tape, next.ptrA) {
      assert st2 == next;
    } else {
      assert Changed(st.tape, st.ptrA, 0) == st.tape;
      assert st2 == next.(pcA := st.pcA, left := 2);
    }
  }

  /** Running A and then B with the cached cell has the effect of running both at once: the same
      states, the same falls, the same deaths, the same verdict. */
  lemma CyclesAgree(a: seq<Kind>, b: seq<Kind>, pol: Polarity, st: State, cycles: nat)
    requires Running(st) && cycles < MAXCYCLES
    ensures EngineCycle(a, Polarized(b, pol), st, cycles) == JoustCycle(a, b, pol, st, MAXCYCLES - cycles)
  {
    EngineSettles(a, b, pol, st, cycles);
    JoustSettles(a, b, pol, st, cycles);
  }

  ghost predicate SameRules(f: Rule, g: Rule, cycles: nat)
  {
    forall s: State, c: nat {:trigger f(s, c)} :: c < cycles ==> f(s, c) == g(s, c)
  }

  /** Rules that agree on every cycle agree on every run. */
  lemma {:induction false} SameRun(f: Rule, g: Rule, st: State, cycles: nat)
    requires SameRules(f, g, cycles)
    ensures Run(f, st, cycles) == Run(g, st, cycles)
    decreases cycles
  {
    if cycles > 0 {
      var c := f(st, cycles - 1);
      if c.On? { SameRun(f, g, c.next, cycles - 1); }
    }
  }

  lemma EngineRules(a: seq<Kind>, b: seq<Kind>, pol: Polarity, f: Rule, g: Rule)
    requires f == Engine(a, Polarized(b, pol)) && g == Joust(a, b, pol)
    ensures SameRules(f, g, MAXCYCLES)
  {
    forall s: State, c: nat {:trigger f(s, c)} | c < MAXCYCLES
      ensures f(s, c) == g(s, c)
    {
      RulesAgree(a, b, pol, s, c);
    }
  }

  lemma RulesAgree(a: seq<Kind>, b: seq<Kind>, pol: Polarity, s: State, c: nat)
    requires c < MAXCYCLES
    ensures Engine(a, Polarized(b, pol))(s, c) == Joust(a, b, pol)(s, c)
  {
    if Running(s) {
      var x := BothCycles(a, b, pol, s, c);
      EngineAt(a, Polarized(b, pol), s, c, x);
      JoustAt(a, b, pol, s, c, x);
    }
  }

  ghost predicate IsEngineCycle(a: seq<Kind>, b: seq<Kind>, s: State, c: nat, x: Cycle)
  {
    Running(s) && x == EngineCycle(a, b, s, c)
  }

  ghost predicate IsJoustCycle(a: seq<Kind>, b: seq<Kind>, pol: Polarity, s: State, c: nat, x: Cycle)
  {
    Running(s) && c < MAXCYCLES && x == JoustCycle(a, b, pol, s, MAXCYCLES - c)
  }

  lemma BothCycles(a: seq<Kind>, b: seq<Kind>, pol: Polarity, s: State, c: nat) returns (x: Cycle)
    requires Running(s) && c < MAXCYCLES
    ensures IsEngineCycle(a, Polarized(b, pol), s, c, x) && IsJoustCycle(a, b, pol, s, c, x)
  {
    CyclesAgree(a, b, pol, s, c);
    x := EngineCycle(a, Polarized(b, pol), s, c);
  }

  lemma EngineAt(a: seq<Kind>, b: seq<Kind>, s: State, c: nat, x: Cycle)
    requires IsEngineCycle(a, b, s, c, x)
    ensures Engine(a, b)(s, c) == x
  {
  }

  lemma JoustAt(a: seq<Kind>, b: seq<Kind>, pol: Polarity, s: State, c: nat, x: Cycle)
    requires IsJoustCycle(a, b, pol, s, c, x)
    ensures Joust(a, b, pol)(s, c) == x
  {
  }

  /** For all programs, both polarities and every tape length, the engine scores a match as the
      simultaneous interpreter does. */
  lemma EngineIsJoust(a: seq<Kind>, b: seq<Kind>, pol: Polarity, size: nat)
    requires size >= 1
    ensures EngineScore(a, Polarized(b, pol), size) == JoustScore(a, b, pol, size)
  {
    var f, g := Engine(a, Polarized(b, pol)), Joust(a, b, pol);
    EngineRules(a, b, pol, f, g);
    SameRun(f, g, Initial(size), MAXCYCLES);
  }

  /** Every match ends, within the cycle limit, with score -1, 0 or 1. */
  lemma EngineScoreRange(a: seq<Kind>, b: seq<Kind>, size: nat)
    requires size >= 1
    ensures -1 <= EngineScore(a, b, size) <= 1
  {
    var f := Engine(a, b);
    forall s: State, c: nat
      ensures f(s, c).Over? ==> -1 <= f(s, c).score <= 1
    {
      if Running(s) { EngineKeepsRunning(a, b, s, c); }
    }
    RunRange(f, Initial(size), MAXCYCLES);
  }

  lemma {:induction false} RunRange(f: Rule, st: State, cycles: nat)
    requires forall s: State, c: nat :: f(s, c).Over? ==> -1 <= f(s, c).score <= 1
    ensures -1 <= Run(f, st, cycles) <= 1
    decreases cycles
  {
    if cycles > 0 && f(st, cycles - 1).On? { RunRange(f, f(st, cycles - 1).next, cycles - 1); }
  }

  // Symmetry: exchange the programs, turn the tape around and, for kettle, negate its cells.

  function MirrorTape(tape: seq<Cell>, pol: Polarity): (r: seq<Cell>)
    ensures |r| == |tape|
  {
    seq(|tape|, i requires 0 <= i < |tape| => Wrap(Signed(pol, tape[|tape| - 1 - i])))
  }

  function Mirror(st: State, pol: Polarity): State
  {
    var n := |st.tape|;
    State(st.pcB, st.pcA, n - 1 - st.ptrB, n - 1 - st.ptrA, MirrorTape(st.tape, pol), st.right, st.left)
  }

  function MirrorCycle(c: Cycle, pol: Polarity): Cycle
  {
    match c
    case Over(score) => Over(-score)
    case On(next) => On(Mirror(next, pol))
  }

  lemma WrapSign(pol: Polarity, x: int)
    ensures Wrap(Signed(pol, Wrap(x))) == Wrap(Signed(pol, x))
  {
  }

  /** Changing a cell and then mirroring is mirroring and then changing the mirrored cell. */
  lemma MirrorChanged(tape: seq<Cell>, pol: Polarity, p: int, d: int)
    ensures MirrorTape(Changed(tape, p, d), pol)
         == Changed(MirrorTape(tape, pol), |tape| - 1 - p, Signed(pol, d))
  {
    if OnTape(tape, p) {
      var x := tape[p];
      WrapSign(pol, x + d);
      WrapTwice(Signed(pol, x), 0, Signed(pol, d));
      }
  }

  lemma SignTwice(pol: Polarity, d: int)
    ensures Signed(pol, Signed(pol, d)) == d
  {
  }

  lemma ActedMirrors(a: seq<Kind>, b: seq<Kind>, pol: Polarity, st: State)
    requires Running(st)
    ensures Running(Mirror(st, pol))
    ensures Acted(b, a, pol, Mirror(st, pol)) == Mirror(Acted(a, b, pol, st), pol)
  {
    var n := |st.tape|;
    var ka, kb := KindAt(a, st.pcA), KindAt(b, st.pcB);
    var p, q := st.ptrA, st.ptrB;
    var d, e := Change(ka), Signed(pol, Change(kb));
    MirrorChanged(st.tape, pol, p, d);
    MirrorChanged(Changed(st.tape, p, d), pol, q, e);
    SignTwice(pol, Change(kb));
    ChangesCommute(MirrorTape(st.tape, pol), n - 1 - p, Signed(pol, d), n - 1 - q, Change(kb));
    MirrorZero(st.tape, pol, p);
    MirrorZero(st.tape, pol, q);
  }

  lemma WrapZero(pol: Polarity, x: Cell)
    ensures Wrap(Signed(pol, x)) == 0 <==> x == 0
  {
    var y: int := x;
    if pol == Kettle && x != 0 {
      assert (-1 * y) % 256 == 256 - y;
    }
  }

  lemma MirrorZero(tape: seq<Cell>, pol: Polarity, p: int)
    requires OnTape(tape, p)
    ensures MirrorTape(tape, pol)[|tape| - 1 - p] == 0 <==> tape[p] == 0
  {
    var q := |tape| - 1 - p;
    assert |tape| - 1 - q == p;
    WrapZero(pol, tape[p]);
    assert MirrorTape(tape, pol)[q] == Wrap(Signed(pol, tape[p]));
  }

  lemma SettledMirrors(next: State, pol: Polarity, fellA: bool, fellB: bool, cycles: nat)
    requires next.tape != []
    ensures Settled(Mirror(next, pol), fellB, fellA, cycles) == MirrorCycle(Settled(next, fellA, fellB, cycles), pol)
  {
    var mirror := Mirror(next, pol);
    MirrorZero(next.tape, pol, 0);
    MirrorZero(next.tape, pol, |next.tape| - 1);
    var left := Flag(next.left, next.tape[0] == 0, fellA);
    var right := Flag(next.right, next.tape[|next.tape| - 1] == 0, fellB);
    assert Settled(next, fellA, fellB, cycles) == Decided(next, left, right, cycles);
    assert Flag(mirror.left, mirror.tape[0] == 0, fellB) == right;
    assert Flag(mirror.right, mirror.tape[|mirror.tape| - 1] == 0, fellA) == left;
    assert Settled(mirror, fellB, fellA, cycles) == Decided(mirror, right, left, cycles);
    DecidedMirrors(next, pol, left, right, cycles);
  }

  lemma DecidedMirrors(next: State, pol: Polarity, left: nat, right: nat, cycles: nat)
    ensures Decided(Mirror(next, pol), right, left, cycles) == MirrorCycle(Decided(next, left, right, cycles), pol)
  {
  }

  lemma CycleMirrors(a: seq<Kind>, b: seq<Kind>, pol: Polarity, st: State, cycles: nat)
    requires Running(st) && cycles < MAXCYCLES
    ensures Running(Mirror(st, pol))
    ensures JoustCycle(b, a, pol, Mirror(st, pol), MAXCYCLES - cycles)
         == MirrorCycle(JoustCycle(a, b, pol, st, MAXCYCLES - cycles), pol)
  {
    var next := Acted(a, b, pol, st);
    ActedMirrors(a, b, pol, st);
    JoustSettles(a, b, pol, st, cycles);
    var mirror := Mirror(st, pol);
    JoustSettles(b, a, pol, mirror, cycles);
    var fellA, fellB := !OnTape(st.tape, next.ptrA), !OnTape(st.tape, next.ptrB);
    SettledMirrors(next, pol, fellA, fellB, cycles);
    assert Acted(b, a, pol, mirror) == Mirror(next, pol);
    assert !OnTape(mirror.tape, Mirror(next, pol).ptrA) == fellB;
    assert !OnTape(mirror.tape, Mirror(next, pol).ptrB) == fellA;
    assert JoustCycle(b, a, pol, mirror, MAXCYCLES - cycles) == Settled(Mirror(next, pol), fellB, fellA, cycles);
  }

  /** Rules that mirror each other on every cycle mirror each other on every run. */
  lemma {:induction false} MirroredRun(f: Rule, g: Rule, pol: Polarity, st: State, cycles: nat)
    requires forall s: State, c: nat :: c < cycles && Running(s) ==> g(Mirror(s, pol), c) == MirrorCycle(f(s, c), pol)
    requires forall s: State, c: nat :: c < cycles && Running(s) && f(s, c).On? ==> Running(f(s, c).next)
    requires Running(st)
    ensures Run(g, Mirror(st, pol), cycles) == -Run(f, st, cycles)
    decreases cycles
  {
    if cycles > 0 {
      var c := f(st, cycles - 1);
      assert g(Mirror(st, pol), cycles - 1) == MirrorCycle(c, pol);
      if c.On? { MirroredRun(f, g, pol, c.next, cycles - 1); }
    }
  }

  lemma InitialMirrors(size: nat, pol: Polarity)
    requires size >= 1
    ensures Mirror(Initial(size), pol) == Initial(size)
  {
    var t, u := Initial(size).tape, MirrorTape(Initial(size).tape, pol);
    forall i | 0 <= i < size
      ensures u[i] == t[i]
    {
      assert t[size - 1 - i] == t[i] && (t[i] == 0 || t[i] == 128);
      assert u[i] == Wrap(Signed(pol, t[i]));
      assert Wrap(0) == 0 && Wrap(128) == 128 && Wrap(-128) == 128;
    }
    assert u == t;
  }

  lemma RuleRuns(a: seq<Kind>, b: seq<Kind>, pol: Polarity, s: State, c: nat)
    requires c < MAXCYCLES && Running(s)
    ensures Joust(a, b, pol)(s, c) == JoustCycle(a, b, pol, s, MAXCYCLES - c)
  {
  }

  /** Exchanging the programs negates the score, in every configuration. */
  lemma JoustMirrors(a: seq<Kind>, b: seq<Kind>, pol: Polarity, size: nat)
    requires size >= 1
    ensures JoustScore(b, a, pol, size) == -JoustScore(a, b, pol, size)
  {
    var f, g := Joust(a, b, pol), Joust(b, a, pol);
    forall s: State, c: nat | c < MAXCYCLES && Running(s)
      ensures g(Mirror(s, pol), c) == MirrorCycle(f(s, c), pol)
      ensures f(s, c).On? ==> Running(f(s, c).next)
    {
      RuleRuns(a, b, pol, s, c);
      CycleMirrors(a, b, pol, s, c);
      RuleRuns(b, a, pol, Mirror(s, pol), c);
      JoustKeepsRunning(a, b, pol, s, MAXCYCLES - c);
    }
    InitialMirrors(size, pol);
    MirroredRun(f, g, pol, Initial(size), MAXCYCLES);
  }

  /** The same for the engine; a program ties itself. */
  lemma EngineMirrors(a: seq<Kind>, b: seq<Kind>, pol: Polarity, size: nat)
    requires size >= 1
    ensures EngineScore(b, Polarized(a, pol), size) == -EngineScore(a, Polarized(b, pol), size)
    ensures a == b ==> EngineScore(a, Polarized(b, pol), size) == 0
  {
    EngineIsJoust(a, b, pol, size);
    EngineIsJoust(b, a, pol, size);
    JoustMirrors(a, b, pol, size);
  }
}
