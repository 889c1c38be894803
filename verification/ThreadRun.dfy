/** One running program of the engine: instruction pointer, running counter and repeat stack. */
module ThreadRun {
  import opened Ops
  import opened Loops
  import opened Expansion
  import opened RepMachine
  import opened Trace
  import opened Heights
  import opened ThreadedCode

  /** The saved counters, top first. */
  function Saved(stack: seq<int>, top: nat): (r: seq<int>)
    requires top <= |stack|
    ensures |r| == top
  {
    if top == 0 then [] else [stack[top - 1]] + Saved(stack, top - 1)
  }

  /** What lies above the top does not matter. */
  lemma {:induction false} SavedBelow(stack: seq<int>, after: seq<int>, top: nat)
    requires top <= |stack| && top <= |after| && stack[..top] == after[..top]
    ensures Saved(after, top) == Saved(stack, top)
    decreases top
  {
    if top > 0 {
      assert stack[..top][top - 1] == after[..top][top - 1];
      assert stack[..top - 1] == stack[..top][..top - 1] == after[..top][..top - 1] == after[..top - 1];
      SavedBelow(stack, after, top - 1);
    }
  }

  /** The list is about to execute what the expanded program has at `pc`. */
  ghost predicate Stands(s: seq<Op>, r: int, c: Config, pc: nat)
    requires WellFormed(s)
  {
    InStep(s, r, c, pc) && HeightIsDepth(s, c)
  }

  /** The thread at `now` runs the code of `s` and is about to execute what the program has at `pc`. */
  ghost predicate Tracks(s: seq<Op>, r: int, now: Config, pc: nat)
  {
    WellFormed(s) && exists c: Config :: Stands(s, r, c, pc) && now == Threads(s, c)
  }

  /** The same, and no repeat instruction comes first. */
  ghost predicate Settled(s: seq<Op>, r: int, now: Config, pc: nat)
  {
    && WellFormed(s) && pc <= |AllCopies(s)|
    && HeightIsDepth(s, Place(s, r, pc)) && now == Threads(s, Place(s, r, pc))
  }

  lemma StartTracks(s: seq<Op>, r: int)
    requires WellFormed(s)
    ensures Tracks(s, r, Config(0, [r]), 0)
  {
    StartsInStep(s, r);
    assert Stands(s, r, Config(0, [r]), 0) && Config(0, [r]) == Threads(s, Config(0, [r]));
  }

  lemma TurnTracks(s: seq<Op>, r: int, now: Config, pc: nat, zero: bool)
    requires Settled(s, r, now, pc)
    ensures Tracks(s, r, ThreadTurn(Threaded(s), now, zero), NextPc(Program(s), pc, zero))
  {
    var d := Place(s, r, pc);
    PlaceKind(s, r, pc);
    TurnInStep(s, r, pc, zero);
    TurnHeight(s, d, zero);
    TurnThreads(s, d, zero);
    assert Stands(s, r, AfterTurn(s, d, zero), NextPc(Program(s), pc, zero));
  }

  lemma SettledToken(s: seq<Op>, r: int, now: Config, pc: nat)
    requires Settled(s, r, now, pc)
    ensures now.ip < |Threaded(s)| && Threaded(s)[now.ip] == Xt(KindAt(Program(s), pc))
    ensures Costed(KindAt(Program(s), pc))
  {
    PlaceKind(s, r, pc);
    TokenAt(s, Place(s, r, pc).ip);
  }

  /** The thread has `n` repeat instructions to go, and `c` is where the list is. */
  ghost predicate Going(s: seq<Op>, r: int, now: Config, pc: nat, c: Config, n: nat)
  {
    && WellFormed(s) && Stands(s, r, c, pc) && now == Threads(s, c)
    && RepSteps(s, c, n) == Some(Place(s, r, pc))
    && now.ip < |Threaded(s)| && Threaded(s)[now.ip] == Xt(s[c.ip].kind)
  }

  lemma TracksGoing(s: seq<Op>, r: int, now: Config, pc: nat) returns (c: Config, n: nat)
    requires Tracks(s, r, now, pc)
    ensures Going(s, r, now, pc, c, n)
  {
    c :| Stands(s, r, c, pc) && now == Threads(s, c);
    n :| RepSteps(s, c, n) == Some(Place(s, r, pc));
    TokenAt(s, c.ip);
  }

  /** While a repeat instruction comes first, the thread takes it, finding what it pops and room for
      what it pushes, and has one less to go. */
  lemma StepGoing(s: seq<Op>, r: int, now: Config, pc: nat, c: Config, n: nat) returns (d: Config)
    requires Going(s, r, now, pc, c, n) && !Costed(Threaded(s)[now.ip].kind)
    ensures n > 0 && d.ip < |s| && ThreadStep(Threaded(s), now) == Some(Threads(s, d)) && |d.regs| <= MAXNEST + 1
    ensures Going(s, r, Threads(s, d), pc, d, n - 1)
  {
    PlaceKind(s, r, pc);
    RepStepThreads(s, c);
    RepStepHeight(s, c);
    d := RepStep(s, c).value;
    assert RepSteps(s, d, n - 1) == Some(Place(s, r, pc));
    assert Depth(s, d.ip) <= MAXNEST;
    TokenAt(s, d.ip);
  }

  /** Once an instruction that takes a cycle comes first, no repeat instruction is left to do. */
  lemma ArrivesSettled(s: seq<Op>, r: int, now: Config, pc: nat, c: Config, n: nat)
    requires Going(s, r, now, pc, c, n) && Costed(Threaded(s)[now.ip].kind)
    ensures Settled(s, r, now, pc)
  {
    assert n > 0 ==> RepStep(s, c) == None;
  }

  /** A whole instruction that takes a cycle stands at `ip`. */
  predicate Shaped(code: seq<Word>, ip: nat)
  {
    && ip < |code| && code[ip].Xt? && Costed(code[ip].kind) && ip + Width(code[ip].kind) <= |code|
    && (code[ip].kind == Loop1 || code[ip].kind == Loop2 ==> code[ip + 1].Target?)
  }

  lemma SettledShaped(s: seq<Op>, r: int, now: Config, pc: nat)
    requires Settled(s, r, now, pc)
    ensures Shaped(Threaded(s), now.ip)
  {
    var i := Place(s, r, pc).ip;
    PlaceKind(s, r, pc);
    TokenAt(s, i);
    if Width(s[i].kind) > 1 { WordAt(s, i, 1); }
  }

  class Thread {
    const stack: array<int>
    var ip: nat
    var rep: int
    var top: nat

    constructor ()
      ensures Valid() && fresh(stack)
    {
      stack := new int[MAXNEST];
      ip, rep, top := 0, 0, 0;
    }

    predicate Valid()
      reads this
    {
      stack.Length == MAXNEST && top <= MAXNEST
    }

    function Now(): Config
      requires Valid()
      reads this, stack
    {
      Config(ip, [rep] + Saved(stack[..], top))
    }

    /** Neither the running counter nor the contents of the stack are reset. */
    method Start()
      requires Valid()
      modifies this`ip, this`top
      ensures Valid() && rep == old(rep) && Now() == Config(0, [rep])
    {
      ip, top := 0, 0;
    }

    method Push(count: int)
      requires Valid() && top < MAXNEST
      modifies this`rep, this`top, stack
      ensures Valid() && Now() == Config(ip, [count] + old(Now().regs))
    {
      ghost var was := stack[..];
      stack[top] := rep;
      SavedBelow(was, stack[..], top);
      top := top + 1;
      rep := count;
    }

    method Pop()
      requires Valid() && top > 0
      modifies this`rep, this`top
      ensures Valid() && Now() == Config(ip, old(Now().regs)[1..])
    {
      top := top - 1;
      rep := stack[top];
    }

    /** One repeat instruction: a step of the threaded code. */
    method RepOp(code: array<Word>)
      requires Valid()
      requires ThreadStep(code[..], Now()).Some? && |ThreadStep(code[..], Now()).value.regs| <= MAXNEST + 1
      modifies this, stack
      ensures Valid() && Some(Now()) == old(ThreadStep(code[..], Now()))
    {
      ghost var c := Now();
      var k := code[ip].kind;
      if k == Rep1 || k == IRep1 {
        Push(code[ip + 1].count);
        ip := ip + 2;
      } else if k == Inner2 {
        Push(1);
        ip := ip + 1;
      } else if k == Rep2 || k == Inner1 {
        rep := rep - 1;
        if rep != 0 {
          ip := code[ip + 1].to;
        } else {
          Pop();
          ip := ip + 2;
        }
      } else {
        rep := rep + 1;
        if rep <= code[ip + 1].count {
          ip := code[ip + 2].to;
        } else {
          Pop();
          ip := ip + 3;
        }
      }
    }

    /** The thread has `n` repeat instructions to go. */
    ghost predicate Nearing(code: array<Word>, s: seq<Op>, r: int, pc: nat, c: Config, n: nat)
      reads this, stack, code
    {
      Valid() && code[..] == Threaded(s) && Going(s, r, Now(), pc, c, n)
    }

    /** Takes one of them. */
    method TakeRep(code: array<Word>, ghost s: seq<Op>, ghost r: int, ghost pc: nat, ghost c: Config, ghost n: nat)
      returns (ghost d: Config)
      requires Nearing(code, s, r, pc, c, n) && !Costed(code[ip].kind)
      modifies this, stack
      ensures n > 0 && Nearing(code, s, r, pc, d, n - 1)
    {
      d := StepGoing(s, r, Now(), pc, c, n);
      RepOp(code);
    }

    /** Takes all of them. */
    method TakeReps(code: array<Word>, ghost s: seq<Op>, ghost r: int, ghost pc: nat, ghost first: Config, ghost most: nat)
      returns (ghost c: Config, ghost n: nat)
      requires Nearing(code, s, r, pc, first, most)
      modifies this, stack
      ensures Nearing(code, s, r, pc, c, n) && Costed(code[ip].kind)
    {
      c, n := first, most;
      while !Costed(code[ip].kind)
        invariant Nearing(code, s, r, pc, c, n)
        decreases n
      {
        c := TakeRep(code, s, r, pc, c, n);
        n := n - 1;
      }
    }

    /** Runs repeat instructions up to one that takes a cycle. There are only finitely many. */
    method Settle(code: array<Word>, ghost s: seq<Op>, ghost r: int, ghost pc: nat)
      requires Valid() && Tracks(s, r, Now(), pc) && code[..] == Threaded(s)
      modifies this, stack
      ensures Valid() && Settled(s, r, Now(), pc)
      ensures ip < code.Length && code[ip] == Xt(KindAt(Program(s), pc)) && Costed(KindAt(Program(s), pc))
    {
      ghost var c, n := TracksGoing(s, r, Now(), pc);
      c, n := TakeReps(code, s, r, pc, c, n);
      ArrivesSettled(s, r, Now(), pc, c, n);
      SettledToken(s, r, Now(), pc);
    }

    /** One instruction that takes a cycle. */
    method Advance(code: array<Word>, zero: bool)
      requires Valid() && Shaped(code[..], ip)
      modifies this`ip
      ensures Valid() && Now() == old(ThreadTurn(code[..], Now(), zero))
    {
      var k := code[ip].kind;
      if k == Loop1 || k == Loop2 {
        if zero == (k == Loop1) { ip := code[ip + 1].to; } else { ip := ip + 2; }
      } else if k != Done {
        ip := ip + 1;
      }
    }

    /** Goes on after an instruction that takes a cycle, when the tested cell is zero or not. */
    method Turn(code: array<Word>, zero: bool, ghost s: seq<Op>, ghost r: int, ghost pc: nat)
      requires Valid() && Settled(s, r, Now(), pc) && code[..] == Threaded(s)
      modifies this`ip
      ensures Valid() && Tracks(s, r, Now(), NextPc(Program(s), pc, zero))
    {
      SettledShaped(s, r, Now(), pc);
      TurnTracks(s, r, Now(), pc, zero);
      Advance(code, zero);
    }
  }
}
