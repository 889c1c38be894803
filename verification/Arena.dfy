/** One match between two programs on a tape: the engine's cycle, which runs A and then B, and the
    simultaneous cycle that it stands for. */
module Arena {
  import opened Ops
  import opened Trace

  type Cell = x: int | 0 <= x < 256

  /** Polarity: `Kettle` swaps `+` and `-` for the right program. */
  datatype Polarity = Sieve | Kettle

  /** Between two cycles. `left` and `right` count consecutive cycles with that flag at zero; `tape`
      has at least one cell. */
  datatype State = State(pcA: nat, pcB: nat, ptrA: int, ptrB: int, tape: seq<Cell>, left: nat, right: nat)

  datatype Cycle = On(next: State) | Over(score: int)

  predicate OnTape(tape: seq<Cell>, ptr: int)
  {
    0 <= ptr < |tape|
  }

  predicate Running(st: State)
  {
    && OnTape(st.tape, st.ptrA) && OnTape(st.tape, st.ptrB)
    && st.left <= 1 && st.right <= 1
  }

  function Wrap(x: int): Cell
  {
    x % 256
  }

  function Flipped(k: Kind): Kind
  {
    if k == Inc then Dec else if k == Dec then Inc else k
  }

  function FlippedCode(code: seq<Kind>): (r: seq<Kind>)
    ensures |r| == |code|
  {
    seq(|code|, i requires 0 <= i < |code| => Flipped(code[i]))
  }

  /** What an instruction adds to the cell under the pointer. */
  function Change(k: Kind): int
  {
    if k == Inc then 1 else if k == Dec then -1 else 0
  }

  /** Movement towards the opponent's flag, for the program on the left. */
  function Move(k: Kind): int
  {
    if k == Right then 1 else if k == Left then -1 else 0
  }

  function Changed(tape: seq<Cell>, ptr: int, d: int): (r: seq<Cell>)
    ensures |r| == |tape|
  {
    if OnTape(tape, ptr) then tape[ptr := Wrap(tape[ptr] + d)] else tape
  }

  /** Both flags begin at 128, with the programs on them. */
  function Initial(size: nat): State
    requires size >= 1
  {
    State(0, 0, 0, size - 1, seq(size, i => if i == 0 || i == size - 1 then 128 else 0), 0, 0)
  }

  // The engine: A acts, then B on the changed tape; B's test uses the cell as it was before.

  /** Consecutive zero cycles, counted as the engine does: a count of two or more is never reset. */
  function Deaths(deaths: nat, zero: bool): nat
  {
    if zero then deaths + 1 else if deaths == 1 then 0 else deaths
  }

  /** The engine's checks at the end of a cycle; `cycles` is what remains after it. */
  function EndOfCycle(st: State, cycles: nat): Cycle
    requires st.tape != []
  {
    var left := Deaths(st.left, st.tape[0] == 0);
    var right := Deaths(st.right, st.tape[|st.tape| - 1] == 0);
    if left >= 2 && right >= 2 then Over(0)
    else if left >= 2 then Over(-1)
    else if right >= 2 then Over(1)
    else if cycles == 0 then Over(0)
    else On(st.(left := left, right := right))
  }

  /** A's instruction. Falling off the tape sets its death counter at once. */
  function ActA(a: seq<Kind>, st: State): State
    requires Running(st)
  {
    var k := KindAt(a, st.pcA);
    var ptr := st.ptrA + Move(k);
    if !OnTape(st.tape, ptr) then st.(ptrA := ptr, left := 2)
    else st.(pcA := NextPc(a, st.pcA, st.tape[st.ptrA] == 0), ptrA := ptr, tape := Changed(st.tape, st.ptrA, Change(k)))
  }

  /** B's instruction, seen from the right end, with its cell cached from the start of the cycle. */
  function ActB(b: seq<Kind>, st: State, cache: Cell): State
    requires OnTape(st.tape, st.ptrB)
  {
    var k := KindAt(b, st.pcB);
    st.(pcB := NextPc(b, st.pcB, cache == 0), ptrB := st.ptrB - Move(k), tape := Changed(st.tape, st.ptrB, Change(k)))
  }

  /** One cycle of the engine, after which `cycles` remain. */
  function EngineCycle(a: seq<Kind>, b: seq<Kind>, st: State, cycles: nat): Cycle
    requires Running(st)
  {
    var st1 := ActA(a, st);
    var st2 := ActB(b, st1, st.tape[st.ptrB]);
    if !OnTape(st2.tape, st2.ptrB) then
      var left := if st2.tape[0] == 0 then st2.left + 1 else st2.left;
      Over(if left >= 2 then 0 else 1)
    else EndOfCycle(st2, cycles)
  }

  /** A cycle that does not end the match leaves a state from which the next can begin: pointers on
      the tape, death counters 0 or 1. */
  lemma EngineKeepsRunning(a: seq<Kind>, b: seq<Kind>, st: State, cycles: nat)
    requires Running(st)
    ensures EngineCycle(a, b, st, cycles).On? ==>
              && Running(EngineCycle(a, b, st, cycles).next) && |EngineCycle(a, b, st, cycles).next.tape| == |st.tape|
              && cycles > 0
    ensures EngineCycle(a, b, st, cycles).Over? ==> -1 <= EngineCycle(a, b, st, cycles).score <= 1
  {
  }

  /** A way to run one cycle; the number is how many cycles remain after it. */
  type Rule = (State, nat) -> Cycle

  /** The score of a match from `st` with `cycles` left; 1 if the left program wins. */
  function Run(rule: Rule, st: State, cycles: nat): int
    decreases cycles
  {
    if cycles == 0 then 0
    else
      match rule(st, cycles - 1)
      case Over(score) => score
      case On(next) => Run(rule, next, cycles - 1)
  }

  function Engine(a: seq<Kind>, b: seq<Kind>): Rule
  {
    (st: State, cycles: nat) => if Running(st) then EngineCycle(a, b, st, cycles) else Over(0)
  }

  function EngineScore(a: seq<Kind>, b: seq<Kind>, size: nat): int
    requires size >= 1
  {
    Run(Engine(a, b), Initial(size), MAXCYCLES)
  }

  // The simultaneous cycle: both programs look at the same tape, then both changes are made.

  function Flag(flag: nat, zero: bool, fell: bool): nat
  {
    if fell then 3 else if zero then flag + 1 else 0
  }

  function Verdict(left: nat, right: nat): int
  {
    if left >= 2 && right < 2 then -1 else if right >= 2 && left < 2 then 1 else 0
  }

  function Signed(pol: Polarity, d: int): int
  {
    if pol == Sieve then d else -d
  }

  /** One simultaneous cycle; afterwards `step` cycles have been run. */
  function JoustCycle(a: seq<Kind>, b: seq<Kind>, pol: Polarity, st: State, step: nat): Cycle
    requires Running(st)
  {
    var ka, kb := KindAt(a, st.pcA), KindAt(b, st.pcB);
    var ptrA, ptrB := st.ptrA + Move(ka), st.ptrB - Move(kb);
    var tape := Changed(Changed(st.tape, ptrA, Change(ka)), ptrB, Signed(pol, Change(kb)));
    var left := Flag(st.left, tape[0] == 0, !OnTape(tape, ptrA));
    var right := Flag(st.right, tape[|tape| - 1] == 0, !OnTape(tape, ptrB));
    if step >= MAXCYCLES || left >= 2 || right >= 2 then Over(Verdict(left, right))
    else On(State(NextPc(a, st.pcA, st.tape[st.ptrA] == 0), NextPc(b, st.pcB, st.tape[st.ptrB] == 0),
                  ptrA, ptrB, tape, left, right))
  }

  lemma JoustKeepsRunning(a: seq<Kind>, b: seq<Kind>, pol: Polarity, st: State, step: nat)
    requires Running(st)
    ensures JoustCycle(a, b, pol, st, step).On? ==>
              Running(JoustCycle(a, b, pol, st, step).next) && |JoustCycle(a, b, pol, st, step).next.tape| == |st.tape|
  {
  }

  function Joust(a: seq<Kind>, b: seq<Kind>, pol: Polarity): Rule
  {
    (st: State, cycles: nat) => if Running(st) && cycles < MAXCYCLES then JoustCycle(a, b, pol, st, MAXCYCLES - cycles) else Over(0)
  }

  function JoustScore(a: seq<Kind>, b: seq<Kind>, pol: Polarity, size: nat): int
    requires size >= 1
  {
    Run(Joust(a, b, pol), Initial(size), MAXCYCLES)
  }
}
