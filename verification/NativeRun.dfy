/** The bytes of the native code, run as the processor runs them: counts and jump distances are read out of
    the code. */
module NativeRun {
  import opened Ops
  import opened Links
  import opened Loops
  import opened Expansion
  import opened RepMachine
  import opened Trace
  import opened ThreadedCode
  import opened Wrench
  import opened WrenchCode

  /** The address of the next instruction, and the counter register with the saved counters. */
  datatype Native = Native(addr: int, regs: seq<int>)

  /** The templates that have a word to patch. */
  predicate Equipped(j: Jit, k: Kind)
  {
    && SoundJit(j, k)
    && (Jumps(k) || k == IRep2 ==> j.rel != -1)
    && (k == Rep1 || k == IRep1 || k == IRep2 ==> j.count != -1)
  }

  ghost predicate EquippedTable(table: Table)
  {
    forall k: Kind, nested: bool {:trigger table(k, nested)} :: Equipped(table(k, nested), k)
  }

  /** The 32-bit word that lies at `pos`. */
  function WordAt(bytes: seq<Byte>, pos: int): int
  {
    if 0 <= pos < |bytes| && bytes[pos].Part? then bytes[pos].word else 0
  }

  /** The count in the code that begins at `addr`. */
  function CountIn(bytes: seq<Byte>, j: Jit, addr: int): int
  {
    WordAt(bytes, addr + j.count)
  }

  /** Where its jump leads. */
  function TargetOf(bytes: seq<Byte>, j: Jit, addr: int): int
  {
    addr + j.rel + 4 + WordAt(bytes, addr + j.rel)
  }

  /** The numbers in the code of an instruction, and the address behind it. */
  datatype Operands = Operands(count: int, target: int, next: int)

  function Fetch(bytes: seq<Byte>, j: Jit, addr: int): Operands
  {
    Operands(CountIn(bytes, j, addr), TargetOf(bytes, j, addr), addr + |j.code|)
  }

  function Leaving(o: Operands, c: Native, r: int, again: bool, nested: bool): Option<Native>
    requires c.regs != []
  {
    if again then Some(Native(o.target, [r] + c.regs[1..]))
    else if !nested then Some(Native(o.next, [r] + c.regs[1..]))
    else if |c.regs| == 1 then None
    else Some(Native(o.next, c.regs[1..]))
  }

  /** Runs one repeat instruction. */
  function RunRep(o: Operands, k: Kind, nested: bool, c: Native): Option<Native>
  {
    if c.regs == [] then None
    else
      var saved := if nested then c.regs else c.regs[1..];
      if k == Rep1 || k == IRep1 then Some(Native(o.next, [o.count] + saved))
      else if k == Inner2 then Some(Native(o.next, [1] + saved))
      else if k == Rep2 || k == Inner1 then Leaving(o, c, c.regs[0] - 1, c.regs[0] - 1 != 0, nested)
      else if k == IRep2 then Leaving(o, c, c.regs[0] + 1, c.regs[0] + 1 <= o.count, nested)
      else None
  }

  /** Runs an instruction that takes a cycle. */
  function RunTurn(o: Operands, k: Kind, zero: bool, c: Native): Native
  {
    if k == Done then c
    else if k == (if zero then Loop1 else Loop2) then c.(addr := o.target)
    else c.(addr := o.next)
  }

  /** Where the code of an instruction begins. */
  function Placed(jits: Choice, c: Config): Native
  {
    Native(CodeAt(jits, c.ip), c.regs)
  }

  /** `bytes` is the code of `s`. */
  ghost predicate CodeOf(bytes: seq<Byte>, table: Table, jits: Choice, s: seq<Op>)
  {
    && WellFormed(s) && EquippedTable(table) && jits == Chosen(table, s)
    && SoundChoice(jits, s) && LaidOut(bytes, jits, s)
  }

  lemma ChosenEquipped(table: Table, s: seq<Op>, i: nat)
    requires EquippedTable(table) && i < |s|
    ensures Equipped(Chosen(table, s)(i), s[i].kind)
  {
    assert Equipped(table(s[i].kind, Nested(s, i)), s[i].kind);
  }

  lemma HeldWord(bytes: seq<Byte>, pos: int, v: int)
    requires Holds(bytes, pos, v)
    ensures WordAt(bytes, pos) == v
  {
  }

  lemma CountStands(bytes: seq<Byte>, jits: Choice, s: seq<Op>, i: nat)
    requires SoundChoice(jits, s) && LaidOut(bytes, jits, s) && i < |s| && jits(i).count != -1
    ensures CountIn(bytes, jits(i), CodeAt(jits, i)) == s[i].count
  {
    CountHeld(bytes, jits, s, i);
    HeldWord(bytes, CodeAt(jits, i) + jits(i).count, s[i].count);
  }

  lemma JumpLeads(bytes: seq<Byte>, jits: Choice, s: seq<Op>, i: nat)
    requires WellFormed(s) && SoundChoice(jits, s) && LaidOut(bytes, jits, s) && i < |s| && jits(i).rel != -1
    ensures 0 <= s[i].mate < |s| - 1 && TargetOf(bytes, jits(i), CodeAt(jits, i)) == CodeAt(jits, s[i].mate + 1)
  {
    var disp := JumpLands(bytes, jits, s, i);
    HeldWord(bytes, CodeAt(jits, i) + jits(i).rel, disp);
  }

  /** The numbers are those of the instruction. */
  ghost predicate Fits(jits: Choice, s: seq<Op>, i: nat, o: Operands)
    requires i < |s|
  {
    && o.next == CodeAt(jits, i + 1)
    && (s[i].kind == Rep1 || s[i].kind == IRep1 || s[i].kind == IRep2 ==> o.count == s[i].count)
    && (Jumps(s[i].kind) || s[i].kind == IRep2 ==> s[i].mate >= 0 && o.target == CodeAt(jits, s[i].mate + 1))
  }

  lemma FetchFits(bytes: seq<Byte>, table: Table, jits: Choice, s: seq<Op>, i: nat)
    requires CodeOf(bytes, table, jits, s) && i < |s|
    ensures Fits(jits, s, i, Fetch(bytes, jits(i), CodeAt(jits, i)))
  {
    ChosenEquipped(table, s, i);
    if jits(i).count != -1 { CountStands(bytes, jits, s, i); }
    if jits(i).rel != -1 { JumpLeads(bytes, jits, s, i); }
  }

  /** The code of a repeat instruction does what the instruction does. */
  lemma RepRuns(jits: Choice, s: seq<Op>, c: Config, o: Operands)
    requires c.ip < |s| && !Costed(s[c.ip].kind) && WrenchStep(s, c).Some? && Fits(jits, s, c.ip, o)
    ensures RunRep(o, s[c.ip].kind, Nested(s, c.ip), Placed(jits, c)) == Some(Placed(jits, WrenchStep(s, c).value))
  {
  }

  lemma TurnRuns(jits: Choice, s: seq<Op>, c: Config, zero: bool, o: Operands)
    requires c.ip < |s| && Costed(s[c.ip].kind) && Fits(jits, s, c.ip, o)
    ensures RunTurn(o, s[c.ip].kind, zero, Placed(jits, c)) == Placed(jits, AfterTurn(s, c, zero))
  {
  }

  // Whole runs.

  /** The code of instruction `i` stands at the address. */
  predicate StandsAt(jits: Choice, s: seq<Op>, c: Native, i: nat)
  {
    i < |s| && c.addr == CodeAt(jits, i)
  }

  /** It is a repeat instruction and leads to `b`. */
  predicate RunsAt(bytes: seq<Byte>, jits: Choice, s: seq<Op>, c: Native, i: nat, b: Native)
  {
    StandsAt(jits, s, c, i) && RunRep(Fetch(bytes, jits(i), c.addr), s[i].kind, Nested(s, i), c) == Some(b)
  }

  /** `n` repeat instructions lead from `c` to `d`. */
  ghost predicate NativeSteps(bytes: seq<Byte>, jits: Choice, s: seq<Op>, c: Native, n: nat, d: Native)
    decreases n
  {
    if n == 0 then c == d
    else exists i: nat, b: Native :: RunsAt(bytes, jits, s, c, i, b) && NativeSteps(bytes, jits, s, b, n - 1, d)
  }

  /** From `c` the code executes the instructions `kinds`, one for each answer. */
  ghost predicate NativeEmits(bytes: seq<Byte>, jits: Choice, s: seq<Op>, c: Native, answers: seq<bool>, kinds: seq<Kind>)
    decreases |answers|
  {
    if answers == [] then kinds == []
    else kinds != [] && exists n: nat, d: Native, i: nat ::
      && NativeSteps(bytes, jits, s, c, n, d) && StandsAt(jits, s, d, i) && Costed(s[i].kind) && s[i].kind == kinds[0]
      && NativeEmits(bytes, jits, s, RunTurn(Fetch(bytes, jits(i), d.addr), s[i].kind, answers[0], d), answers[1..], kinds[1..])
  }

  lemma StepRuns(bytes: seq<Byte>, table: Table, jits: Choice, s: seq<Op>, w: Config)
    requires CodeOf(bytes, table, jits, s) && w.ip < |s| && !Costed(s[w.ip].kind) && WrenchStep(s, w).Some?
    ensures RunsAt(bytes, jits, s, Placed(jits, w), w.ip, Placed(jits, WrenchStep(s, w).value))
  {
    FetchFits(bytes, table, jits, s, w.ip);
    RepRuns(jits, s, w, Fetch(bytes, jits(w.ip), CodeAt(jits, w.ip)));
  }

  lemma {:induction false} StepsRun(bytes: seq<Byte>, table: Table, jits: Choice, s: seq<Op>, w: Config, n: nat, v: Config)
    requires CodeOf(bytes, table, jits, s) && WrenchSteps(s, w, n) == Some(v)
    ensures NativeSteps(bytes, jits, s, Placed(jits, w), n, Placed(jits, v))
    decreases n
  {
    if n > 0 {
      StepRuns(bytes, table, jits, s, w);
      StepsRun(bytes, table, jits, s, WrenchStep(s, w).value, n - 1, v);
    }
  }

  lemma {:induction false} EmitsRun(bytes: seq<Byte>, table: Table, jits: Choice, s: seq<Op>, w: Config, answers: seq<bool>, kinds: seq<Kind>)
    requires CodeOf(bytes, table, jits, s) && WrenchEmits(s, w, answers, kinds)
    ensures NativeEmits(bytes, jits, s, Placed(jits, w), answers, kinds)
    decreases |answers|
  {
    if answers != [] {
      var n: nat, v: Config :| WrenchSettles(s, w, n, v) && s[v.ip].kind == kinds[0]
                               && WrenchEmits(s, AfterTurn(s, v, answers[0]), answers[1..], kinds[1..]);
      StepsRun(bytes, table, jits, s, w, n, v);
      FetchFits(bytes, table, jits, s, v.ip);
      TurnRuns(jits, s, v, answers[0], Fetch(bytes, jits(v.ip), CodeAt(jits, v.ip)));
      EmitsRun(bytes, table, jits, s, AfterTurn(s, v, answers[0]), answers[1..], kinds[1..]);
      assert StandsAt(jits, s, Placed(jits, v), v.ip);
    }
  }

  /** The bytes that the compiler lays out execute the expanded program. */
  lemma NativeRunsExpanded(bytes: seq<Byte>, table: Table, s: seq<Op>, x: int, answers: seq<bool>)
    requires WellFormed(s) && EquippedTable(table)
    requires SoundChoice(Chosen(table, s), s) && LaidOut(bytes, Chosen(table, s), s)
    ensures NativeEmits(bytes, Chosen(table, s), s, Native(0, [x]), answers, FlatTrace(Program(s), 0, answers))
  {
    ElisionRuns(s, x, answers);
    EmitsRun(bytes, table, Chosen(table, s), s, Config(0, [x]), answers, FlatTrace(Program(s), 0, answers));
  }
}
