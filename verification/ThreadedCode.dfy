/** Threaded code: the list of instructions laid out as words, with jump targets in place of links. */
module ThreadedCode {
  import opened Nest
  import opened Ops
  import opened Links
  import opened Loops
  import opened Nesting
  import opened Expansion
  import opened RepMachine
  import opened Trace
  import opened Heights

  /** One cell of threaded code. */
  datatype Word = Xt(kind: Kind) | Target(to: nat) | Count(count: int)

  predicate Jumps(k: Kind)
  {
    k.Loop1? || k.Loop2? || k.Rep2? || k.Inner1?
  }

  /** How many words an instruction takes. */
  function Width(k: Kind): nat
  {
    if k == IRep2 then 3
    else if Jumps(k) || k == Rep1 || k == IRep1 then 2
    else 1
  }

  /** Where instruction `i` begins. */
  function Offset(s: seq<Op>, i: nat): nat
    requires i <= |s|
  {
    if i == 0 then 0 else Offset(s, i - 1) + Width(s[i - 1].kind)
  }

  /** The position after the mate of instruction `i`. */
  function Goal(s: seq<Op>, i: nat): nat
    requires i < |s|
  {
    if -1 <= s[i].mate < |s| then Offset(s, s[i].mate + 1) else 0
  }

  function Words(s: seq<Op>, i: nat): (ws: seq<Word>)
    requires i < |s|
    ensures |ws| == Width(s[i].kind)
  {
    var o := s[i];
    if Jumps(o.kind) then [Xt(o.kind), Target(Goal(s, i))]
    else if o.kind == Rep1 || o.kind == IRep1 then [Xt(o.kind), Count(o.count)]
    else if o.kind == IRep2 then [Xt(o.kind), Count(o.count), Target(Goal(s, i))]
    else [Xt(o.kind)]
  }

  /** The code of the first `n` instructions. */
  function Code(s: seq<Op>, n: nat): (ws: seq<Word>)
    requires n <= |s|
    ensures |ws| == Offset(s, n)
  {
    if n == 0 then [] else Code(s, n - 1) + Words(s, n - 1)
  }

  function Threaded(s: seq<Op>): seq<Word>
  {
    Code(s, |s|)
  }

  /** The words of instruction `i` stand at its offset. */
  lemma {:induction false} WordsAt(s: seq<Op>, n: nat, i: nat)
    requires i < n <= |s|
    ensures Offset(s, i + 1) <= |Code(s, n)| && Code(s, n)[Offset(s, i)..Offset(s, i + 1)] == Words(s, i)
    decreases n
  {
    if i < n - 1 {
      WordsAt(s, n - 1, i);
    }
  }

  lemma WordAt(s: seq<Op>, i: nat, j: nat)
    requires i < |s| && j < Width(s[i].kind)
    ensures Offset(s, i) + j < |Threaded(s)| && Threaded(s)[Offset(s, i) + j] == Words(s, i)[j]
  {
    var code := Threaded(s);
    WordsAt(s, |s|, i);
    WordOf(code, Offset(s, i), Offset(s, i + 1), Words(s, i), j);
  }

  lemma WordOf(code: seq<Word>, lo: nat, hi: nat, ws: seq<Word>, j: nat)
    requires lo <= hi <= |code| && code[lo..hi] == ws && j < |ws|
    ensures code[lo + j] == ws[j]
  {
    assert code[lo..hi][j] == code[lo + j];
  }

  /** Every instruction begins with its own execution token. */
  lemma TokenAt(s: seq<Op>, i: nat)
    requires i < |s|
    ensures Offset(s, i) < |Threaded(s)| && Threaded(s)[Offset(s, i)] == Xt(s[i].kind)
  {
    WordAt(s, i, 0);
  }

  lemma {:induction false} OffsetsIncrease(s: seq<Op>, i: nat, j: nat)
    requires i < j <= |s|
    ensures Offset(s, i) < Offset(s, j)
    decreases j
  {
    if i < j - 1 {
      OffsetsIncrease(s, i, j - 1);
    }
  }

  /** A threaded program: registers as before, but `ip` counts words. */
  function Threads(s: seq<Op>, c: Config): Config
    requires c.ip <= |s|
  {
    Config(Offset(s, c.ip), c.regs)
  }

  /** One repeat instruction of the threaded code. */
  function ThreadStep(code: seq<Word>, c: Config): Option<Config>
  {
    if c.ip >= |code| || !code[c.ip].Xt? || c.regs == [] then None
    else if c.ip + Width(code[c.ip].kind) > |code| then None
    else
      var k := code[c.ip].kind;
      var arg := if Width(k) > 1 then code[c.ip + 1] else code[c.ip];
      if k == Inner2 then Some(Config(c.ip + 1, [1] + c.regs))
      else if (k == Rep1 || k == IRep1) && arg.Count? then Some(Config(c.ip + 2, [arg.count] + c.regs))
      else if (k == Rep2 || k == Inner1) && arg.Target? then
        Again(c, c.regs[0] - 1, c.regs[0] - 1 != 0, arg.to, c.ip + 2)
      else if k == IRep2 && arg.Count? && code[c.ip + 2].Target? then
        Again(c, c.regs[0] + 1, c.regs[0] + 1 <= arg.count, code[c.ip + 2].to, c.ip + 3)
      else None
  }

  /** Another turn with counter `r`, or on with the saved counter. */
  function Again(c: Config, r: int, again: bool, back: nat, on: nat): Option<Config>
    requires c.regs != []
  {
    if again then Some(Config(back, [r] + c.regs[1..]))
    else if |c.regs| == 1 then None
    else Some(Config(on, c.regs[1..]))
  }

  /** Where the threaded code goes on after an instruction that takes a cycle. */
  function ThreadTurn(code: seq<Word>, c: Config, zero: bool): Config
  {
    if c.ip >= |code| || !code[c.ip].Xt? || code[c.ip].kind == Done then c
    else if c.ip + Width(code[c.ip].kind) > |code| then c
    else
      var k := code[c.ip].kind;
      if k == (if zero then Loop1 else Loop2) && code[c.ip + 1].Target? then c.(ip := code[c.ip + 1].to)
      else c.(ip := c.ip + Width(k))
  }

  /** The mate of a jump is followed by another instruction. */
  lemma MateBeforeEnd(s: seq<Op>, i: nat)
    requires WellFormed(s) && i < |s| && (Jumps(s[i].kind) || s[i].kind == IRep2)
    ensures 0 <= s[i].mate < |s| - 1
  {
    assert LinkedAt(s, i);
    if IsLoop(s[i].kind) {
      LoopBeforeEnd(s, i);
    } else {
      assert s[s[i].mate].kind != Done;
    }
  }

  lemma StepThreads(s: seq<Op>, c: Config, d: Config)
    requires WellFormed(s) && c.ip < |s| && c.regs != [] && RepStep(s, c) == Some(d)
    ensures d.ip < |s| && ThreadStep(Threaded(s), Threads(s, c)) == Some(Threads(s, d))
  {
    var i := c.ip;
    WordAt(s, i, 0);
    if Width(s[i].kind) > 1 { WordAt(s, i, 1); }
    if Width(s[i].kind) > 2 { WordAt(s, i, 2); }
    assert Offset(s, i + 1) == Offset(s, i) + Width(s[i].kind);
    if Jumps(s[i].kind) || s[i].kind == IRep2 { MateBeforeEnd(s, i); }
    assert s[i].kind != Done;
  }

  /** Each repeat instruction of the list is one step of its threaded code. */
  lemma RepStepThreads(s: seq<Op>, c: Config)
    requires WellFormed(s) && HeightIsDepth(s, c) && !Costed(s[c.ip].kind)
    ensures RepStep(s, c).Some? && RepStep(s, c).value.ip < |s|
    ensures ThreadStep(Threaded(s), Threads(s, c)) == Some(Threads(s, RepStep(s, c).value))
  {
    RepStepHeight(s, c);
    DepthNonnegative(s, c.ip);
    StepThreads(s, c, RepStep(s, c).value);
  }

  /** The same for an instruction that takes a cycle. */
  lemma TurnThreads(s: seq<Op>, c: Config, zero: bool)
    requires WellFormed(s) && c.ip < |s| && Costed(s[c.ip].kind)
    ensures AfterTurn(s, c, zero).ip < |s|
    ensures ThreadTurn(Threaded(s), Threads(s, c), zero) == Threads(s, AfterTurn(s, c, zero))
  {
    var i := c.ip;
    WordAt(s, i, 0);
    assert Offset(s, i + 1) == Offset(s, i) + Width(s[i].kind);
    if IsLoop(s[i].kind) {
      WordAt(s, i, 1);
      MateBeforeEnd(s, i);
    }
  }

  /** One instruction of the threaded code leads from `b` to `c`. */
  ghost predicate ThreadNext(code: seq<Word>, b: Config, c: Config)
  {
    b.ip < |code| && code[b.ip].Xt? &&
    if Costed(code[b.ip].kind) then c == ThreadTurn(code, b, true) || c == ThreadTurn(code, b, false)
    else ThreadStep(code, b) == Some(c)
  }

  ghost predicate ThreadReachable(code: seq<Word>, r: int, c: Config, steps: nat)
    decreases steps
  {
    if steps == 0 then c == Config(0, [r])
    else exists b :: ThreadReachable(code, r, b, steps - 1) && ThreadNext(code, b, c)
  }

  lemma NextThreads(s: seq<Op>, b: Config, t: Config) returns (c: Config)
    requires WellFormed(s) && HeightIsDepth(s, b) && ThreadNext(Threaded(s), Threads(s, b), t)
    ensures Next(s, b, c) && c.ip < |s| && t == Threads(s, c)
  {
    TokenAt(s, b.ip);
    if Costed(s[b.ip].kind) {
      var zero := t == ThreadTurn(Threaded(s), Threads(s, b), true);
      TurnThreads(s, b, zero);
      c := AfterTurn(s, b, zero);
    } else {
      RepStepThreads(s, b);
      c := RepStep(s, b).value;
    }
  }

  lemma ThreadNextReaches(s: seq<Op>, r: int, b: Config, t: Config, steps: nat) returns (c: Config)
    requires WellFormed(s) && Reachable(s, r, b, steps) && b.ip < |s| && ThreadNext(Threaded(s), Threads(s, b), t)
    ensures Reachable(s, r, c, steps + 1) && c.ip < |s| && t == Threads(s, c)
  {
    StackHeight(s, r, b, steps);
    c := NextThreads(s, b, t);
  }

  /** Every reachable instruction pointer is the offset of some instruction, never an operand, and the
      list is in the corresponding state after as many steps. */
  lemma {:induction false} ThreadedRefines(s: seq<Op>, r: int, t: Config, steps: nat) returns (c: Config)
    requires WellFormed(s) && ThreadReachable(Threaded(s), r, t, steps)
    ensures Reachable(s, r, c, steps) && c.ip < |s| && t == Threads(s, c)
    ensures t.ip < |Threaded(s)| && Threaded(s)[t.ip] == Xt(s[c.ip].kind)
    decreases steps
  {
    if steps == 0 {
      c := t;
    } else {
      var n: nat := steps - 1;
      var t' :| ThreadReachable(Threaded(s), r, t', n) && ThreadNext(Threaded(s), t', t);
      var b := ThreadedRefines(s, r, t', n);
      c := ThreadNextReaches(s, r, b, t, n);
    }
    TokenAt(s, c.ip);
  }

  /** Conversely the threaded code can do what the list does. */
  lemma {:induction false} ThreadedFollows(s: seq<Op>, r: int, c: Config, steps: nat)
    requires WellFormed(s) && Reachable(s, r, c, steps)
    ensures c.ip < |s| && ThreadReachable(Threaded(s), r, Threads(s, c), steps)
    decreases steps
  {
    if steps > 0 {
      var b :| Reachable(s, r, b, steps - 1) && Next(s, b, c);
      StackHeight(s, r, b, steps - 1);
      ThreadedFollows(s, r, b, steps - 1);
      TokenAt(s, b.ip);
      if Costed(s[b.ip].kind) {
        TurnThreads(s, b, true);
        TurnThreads(s, b, false);
      } else {
        RepStepThreads(s, b);
      }
      assert ThreadNext(Threaded(s), Threads(s, b), Threads(s, c));
    }
  }
}
