/** When the daemon's replies list sieve before kettle. */
module HillOrder {
  import opened Ops
  import opened RepMachine
  import opened Trace
  import opened Matching
  import opened Arena
  import opened ArenaLaws
  import Decided
  import opened CoreEngine
  import opened Gearlanced

  /** The reply for slot `i` lists the sieve results of `p` first and the kettle results second. */
  ghost predicate SieveFirst(slots: seq<Option<seq<Kind>>>, i: nat, p: seq<Kind>)
    requires i < |slots|
  {
    match slots[i]
    case None => true
    case Some(q) => Answer(slots, i, p) == Chunk(Results(p, q, Sieve), Results(p, q, Kettle))
  }

  /** An even number of slots before slot `i` are unset, or it is unset itself. */
  predicate EvenlyUnset(slots: seq<Option<seq<Kind>>>, i: nat)
    requires i < |slots|
  {
    slots[i] == None || Unset(slots, i) % 2 == 0
  }

  lemma OrderOrSame(slots: seq<Option<seq<Kind>>>, i: nat, p: seq<Kind>)
    requires i < |slots|
    ensures SieveFirst(slots, i, p) <==>
              EvenlyUnset(slots, i) || Results(p, slots[i].value, Sieve) == Results(p, slots[i].value, Kettle)
  {
  }

  lemma {:induction false} NoneUnset(slots: seq<Option<seq<Kind>>>, i: nat)
    requires i <= |slots| && forall k :: 0 <= k < i ==> slots[k] != None
    ensures Unset(slots, i) == 0
    decreases i
  {
    if i > 0 { NoneUnset(slots, i - 1); }
  }

  /** On a hill without unset slots every reply has the documented order. */
  lemma FullHill(slots: seq<Option<seq<Kind>>>, i: nat, p: seq<Kind>)
    requires i < |slots| && forall k :: 0 <= k < i ==> slots[k] != None
    ensures SieveFirst(slots, i, p)
  {
    NoneUnset(slots, i);
    OrderOrSame(slots, i, p);
  }

  // Two programs for which the polarity matters: both change cell 4, and the right one runs off the
  // tape if the changes do not cancel out.

  function Raider(): seq<Kind>
  {
    [Right, Right, Right, Right, Inc]
  }

  /** `sign` is `-` or `+`. */
  function Guard(sign: Kind): seq<Kind>
  {
    [Right, Right, Right, Right, Right, sign, Loop1, Left, Left, Left, Left, Left, Left, Loop2]
  }

  /** A tape of ten cells on which both flags are up. */
  predicate Up(t: seq<Cell>)
  {
    |t| == 10 && t[0] != 0 && t[9] != 0
  }

  lemma GuardLoop(sign: Kind)
    requires sign == Inc || sign == Dec
    ensures CloseOf(Guard(sign), 7, 1) == 13
  {
    var g := Guard(sign);
    assert CloseOf(g, 13, 1) == 13;
    assert CloseOf(g, 10, 1) == CloseOf(g, 11, 1) == CloseOf(g, 12, 1) == CloseOf(g, 13, 1);
    assert CloseOf(g, 7, 1) == CloseOf(g, 8, 1) == CloseOf(g, 9, 1) == CloseOf(g, 10, 1);
  }

  /** A cycle in which both programs stay on the tape and both flags stay up. */
  predicate Quiet(p: seq<Kind>, q: seq<Kind>, st: State, next: State)
  {
    && Running(st) && OnTape(st.tape, next.ptrA) && OnTape(st.tape, next.ptrB)
    && next.tape == Changed(Changed(st.tape, st.ptrA, Change(KindAt(p, st.pcA))), st.ptrB, Change(KindAt(q, st.pcB)))
    && next.tape[0] != 0 && next.tape[|st.tape| - 1] != 0
    && st.left == st.right == next.left == next.right == 0
    && next.pcA == NextPc(p, st.pcA, st.tape[st.ptrA] == 0) && next.ptrA == st.ptrA + Move(KindAt(p, st.pcA))
    && next.pcB == NextPc(q, st.pcB, st.tape[st.ptrB] == 0) && next.ptrB == st.ptrB - Move(KindAt(q, st.pcB))
  }

  /** The score from a state on, with so many cycles left. */
  type Scoring = (State, nat) -> int

  /** `f` is not changed by quiet cycles. */
  ghost predicate Steady(f: Scoring, p: seq<Kind>, q: seq<Kind>)
  {
    forall st: State, next: State, cycles: nat {:trigger Quiet(p, q, st, next), f(st, cycles)} ::
      Quiet(p, q, st, next) && cycles > 1 ==> f(st, cycles) == f(next, cycles - 1)
  }

  function Score(p: seq<Kind>, q: seq<Kind>): Scoring
  {
    (st: State, cycles: nat) => Run(Engine(p, q), st, cycles)
  }

  lemma QuietRun(p: seq<Kind>, q: seq<Kind>, st: State, next: State, cycles: nat)
    requires Quiet(p, q, st, next) && cycles > 1
    ensures Run(Engine(p, q), st, cycles) == Run(Engine(p, q), next, cycles - 1)
  {
    assert EngineCycle(p, q, st, cycles - 1) == On(next);
    EngineRun(p, q, Engine(p, q), st, cycles - 1, false, 0, next);
  }

  lemma ScoreSteady(p: seq<Kind>, q: seq<Kind>)
    ensures Steady(Score(p, q), p, q)
  {
    forall st: State, next: State, cycles: nat | Quiet(p, q, st, next) && cycles > 1
      ensures Score(p, q)(st, cycles) == Score(p, q)(next, cycles - 1)
    {
      QuietRun(p, q, st, next, cycles);
    }
  }

  lemma Unchanged(tape: seq<Cell>, ptr: int)
    ensures Changed(tape, ptr, 0) == tape
  {
  }

  predicate Moves(code: seq<Kind>, pc: nat)
  {
    pc < |code| ==> code[pc] == Left || code[pc] == Right
  }

  function Later(code: seq<Kind>, pc: nat): nat
  {
    if pc < |code| then pc + 1 else pc
  }

  /** A cycle in which the programs only move. */
  lemma Still(p: seq<Kind>, q: seq<Kind>, st: State, next: State)
    requires Up(st.tape) && Running(st) && st.left == 0 && st.right == 0 && Moves(p, st.pcA) && Moves(q, st.pcB)
    requires next == State(Later(p, st.pcA), Later(q, st.pcB), st.ptrA + Move(KindAt(p, st.pcA)),
                           st.ptrB - Move(KindAt(q, st.pcB)), st.tape, 0, 0)
    requires OnTape(st.tape, next.ptrA) && OnTape(st.tape, next.ptrB)
    ensures Quiet(p, q, st, next)
  {
    Unchanged(st.tape, st.ptrA);
    Unchanged(st.tape, st.ptrB);
  }

  /** Both programs walk towards each other. */
  lemma Walk(f: Scoring, p: seq<Kind>, q: seq<Kind>, t: seq<Cell>, k: nat, cycles: nat)
    requires Steady(f, p, q) && Up(t) && k < 4 && cycles > 1 && |p| > k && |q| > k && p[k] == Right && q[k] == Right
    ensures f(State(k, k, k, 9 - k, t, 0, 0), cycles) == f(State(k + 1, k + 1, k + 1, 8 - k, t, 0, 0), cycles - 1)
  {
    Still(p, q, State(k, k, k, 9 - k, t, 0, 0), State(k + 1, k + 1, k + 1, 8 - k, t, 0, 0));
  }

  /** Once both programs are done and the flags are up, nothing happens any more. */
  lemma {:induction false} Rest(p: seq<Kind>, q: seq<Kind>, st: State, cycles: nat)
    requires Running(st) && st.left == 0 && st.right == 0 && st.pcA >= |p| && st.pcB >= |q|
    requires st.tape[0] != 0 && st.tape[|st.tape| - 1] != 0
    ensures Run(Engine(p, q), st, cycles) == 0
    decreases cycles
  {
    Unchanged(st.tape, st.ptrA);
    Unchanged(st.tape, st.ptrB);
    if cycles > 1 {
      QuietRun(p, q, st, st, cycles);
      Rest(p, q, st, cycles - 1);
    } else if cycles == 1 {
      assert EngineCycle(p, q, st, 0) == Over(0);
    }
  }

  /** The right program runs one cell further. */
  lemma RunOn(f: Scoring, p: seq<Kind>, q: seq<Kind>, t: seq<Cell>, pc: nat, ptr: int, cycles: nat)
    requires Steady(f, p, q) && Up(t) && cycles > 1 && |p| <= 5 && pc < |q| && q[pc] == Left && 0 <= ptr < 9
    ensures f(State(5, pc, 4, ptr, t, 0, 0), cycles) == f(State(5, pc + 1, 4, ptr + 1, t, 0, 0), cycles - 1)
  {
    Still(p, q, State(5, pc, 4, ptr, t, 0, 0), State(5, pc + 1, 4, ptr + 1, t, 0, 0));
  }

  lemma Flee(f: Scoring, p: seq<Kind>, q: seq<Kind>, t: seq<Cell>, cycles: nat)
    requires Steady(f, p, q) && Up(t) && cycles > 10 && |p| <= 5 && |q| > 12
    requires q[7] == q[8] == q[9] == q[10] == q[11] == Left
    ensures f(State(5, 7, 4, 4, t, 0, 0), cycles) == f(State(5, 12, 4, 9, t, 0, 0), cycles - 5)
  {
    RunOn(f, p, q, t, 7, 4, cycles);
    RunOn(f, p, q, t, 8, 5, cycles - 1);
    RunOn(f, p, q, t, 9, 6, cycles - 2);
    RunOn(f, p, q, t, 10, 7, cycles - 3);
    RunOn(f, p, q, t, 11, 8, cycles - 4);
  }

  /** The right program runs off the tape. */
  lemma RunOff(p: seq<Kind>, q: seq<Kind>, t: seq<Cell>, pc: nat, cycles: nat)
    requires Up(t) && cycles > 0 && |p| <= 5 && pc < |q| && q[pc] == Left
    ensures Run(Engine(p, q), State(5, pc, 4, 9, t, 0, 0), cycles) == 1
  {
    var st := State(5, pc, 4, 9, t, 0, 0);
    Unchanged(t, 4);
    Unchanged(t, 9);
    assert EngineCycle(p, q, st, cycles - 1) == Over(1);
    EngineRun(p, q, Engine(p, q), st, cycles - 1, true, 1, st);
  }

  /** Both programs change cell 4. */
  lemma Meet(f: Scoring, p: seq<Kind>, q: seq<Kind>, sign: Kind, t: seq<Cell>, x: Cell, cycles: nat)
    requires Steady(f, p, q) && Up(t) && t[4] == 0 && cycles > 10
    requires |p| == 5 && |q| > 5 && p[4] == Inc && q[4] == Right && q[5] == sign
    requires (sign == Inc && x == 2) || (sign == Dec && x == 0)
    ensures f(State(4, 4, 4, 5, t, 0, 0), cycles) == f(State(5, 6, 4, 4, t[4 := x], 0, 0), cycles - 2)
  {
    var u := t[4 := 1];
    Unchanged(u, 5);
    assert Changed(t, 4, 1) == u && Changed(u, 4, 0) == u && Changed(u, 4, Change(sign)) == t[4 := x];
    assert Quiet(p, q, State(4, 4, 4, 5, t, 0, 0), State(5, 5, 4, 4, u, 0, 0));
    assert Quiet(p, q, State(5, 5, 4, 4, u, 0, 0), State(5, 6, 4, 4, t[4 := x], 0, 0));
  }

  /** Up to where the right program tests cell 4. */
  lemma Approach(f: Scoring, sign: Kind, t: seq<Cell>, x: Cell, cycles: nat)
    requires Steady(f, Raider(), Guard(sign)) && Up(t) && t[4] == 0 && cycles > 100
    requires (sign == Inc && x == 2) || (sign == Dec && x == 0)
    ensures f(State(0, 0, 0, 9, t, 0, 0), cycles) == f(State(5, 6, 4, 4, t[4 := x], 0, 0), cycles - 6)
  {
    var p, q := Raider(), Guard(sign);
    Walk(f, p, q, t, 0, cycles);
    Walk(f, p, q, t, 1, cycles - 1);
    Walk(f, p, q, t, 2, cycles - 2);
    Walk(f, p, q, t, 3, cycles - 3);
    Meet(f, p, q, sign, t, x, cycles - 4);
  }

  /** In sieve the changes cancel out, and the guard stops. */
  lemma SieveTies(cycles: nat, t: seq<Cell>)
    requires cycles > 100 && Up(t) && t[4] == 0
    ensures Run(Engine(Raider(), Guard(Dec)), State(0, 0, 0, 9, t, 0, 0), cycles) == 0
  {
    var p, q := Raider(), Guard(Dec);
    ScoreSteady(p, q);
    Approach(Score(p, q), Dec, t, 0, cycles);
    GuardLoop(Dec);
    var u := t[4 := 0];
    Unchanged(u, 4);
    QuietRun(p, q, State(5, 6, 4, 4, u, 0, 0), State(5, 14, 4, 4, u, 0, 0), cycles - 6);
    Rest(p, q, State(5, 14, 4, 4, u, 0, 0), cycles - 7);
  }

  /** In kettle they add up, and the guard runs off the tape. */
  lemma KettleWins(cycles: nat, t: seq<Cell>)
    requires cycles > 100 && Up(t) && t[4] == 0
    ensures Run(Engine(Raider(), Guard(Inc)), State(0, 0, 0, 9, t, 0, 0), cycles) == 1
  {
    var p, q := Raider(), Guard(Inc);
    var f := Score(p, q);
    ScoreSteady(p, q);
    Approach(f, Inc, t, 2, cycles);
    var u := t[4 := 2];
    Unchanged(u, 4);
    QuietRun(p, q, State(5, 6, 4, 4, u, 0, 0), State(5, 7, 4, 4, u, 0, 0), cycles - 6);
    GuardFlees(u, cycles - 7);
  }

  lemma GuardFlees(u: seq<Cell>, cycles: nat)
    requires cycles > 10 && Up(u)
    ensures Run(Engine(Raider(), Guard(Inc)), State(5, 7, 4, 4, u, 0, 0), cycles) == 1
  {
    var p, q := Raider(), Guard(Inc);
    ScoreSteady(p, q);
    Flee(Score(p, q), p, q, u, cycles);
    RunOff(p, q, u, 12, cycles - 5);
  }

  /** Against the same program the raider ties in one polarity and wins in the other. */
  lemma PolaritiesDiffer()
    ensures JoustScore(Raider(), Guard(Dec), Sieve, 10) == 0
    ensures JoustScore(Raider(), Guard(Dec), Kettle, 10) == 1
  {
    var t := Initial(10).tape;
    EngineIsJoust(Raider(), Guard(Dec), Sieve, 10);
    SieveTies(MAXCYCLES, t);
    EngineIsJoust(Raider(), Guard(Dec), Kettle, 10);
    assert FlippedCode(Guard(Dec)) == Guard(Inc);
    KettleWins(MAXCYCLES, t);
  }

  /** A slot that is set, behind an odd number of unset ones, gets the documented order only from
      newcomers for which the order does not matter; and there are others. */
  lemma SieveFirstExactly(slots: seq<Option<seq<Kind>>>, i: nat)
    requires i < |slots|
    ensures EvenlyUnset(slots, i) ==> forall p: seq<Kind> :: SieveFirst(slots, i, p)
    ensures slots[i] == Some(Guard(Dec)) && !EvenlyUnset(slots, i) ==> !SieveFirst(slots, i, Raider())
  {
    if slots[i] == Some(Guard(Dec)) && !EvenlyUnset(slots, i) {
      PolaritiesDiffer();
      assert Results(Raider(), Guard(Dec), Sieve)[0] == 0;
      assert Results(Raider(), Guard(Dec), Kettle)[0] == 1;
      OrderOrSame(slots, i, Raider());
    }
  }

  // The reply holds the newcomer's own results.

  function Every(x: int): (row: seq<int>)
    ensures |row| == NTAPES
  {
    seq(NTAPES, _ => x)
  }

  /** Zeroes its own flag and waits. */
  function Quitter(): seq<Kind>
  {
    Decided.Times(Dec, 128)
  }

  lemma QuitterLoses(pol: Polarity)
    ensures Results(Quitter(), [], pol) == Every(-1) && Results([], Quitter(), pol) == Every(1)
  {
    forall k: nat | k < NTAPES
      ensures Results(Quitter(), [], pol)[k] == -1 && Results([], Quitter(), pol)[k] == 1
    {
      Decided.Decrements(128, Sieve, MINTAPE + k);
      Decided.Decrements(128, Kettle, MINTAPE + k);
      JoustMirrors(Quitter(), [], pol, MINTAPE + k);
    }
  }

  /** A newcomer that gives up gets -1 from a program that does nothing, and one that does nothing gets 1
      from a program that gives up, wherever they stand. */
  lemma OwnResults(slots: seq<Option<seq<Kind>>>, i: nat)
    requires i < |slots|
    ensures slots[i] == Some([]) ==> Answer(slots, i, Quitter()) == Chunk(Every(-1), Every(-1))
    ensures slots[i] == Some(Quitter()) ==> Answer(slots, i, []) == Chunk(Every(1), Every(1))
  {
    QuitterLoses(Sieve);
    QuitterLoses(Kettle);
  }
}
