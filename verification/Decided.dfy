/** Matches against a program that does nothing, decided by where the other one goes and what it does to
    its flag. */
module Decided {
  import opened Ops
  import opened Matching
  import opened Trace
  import opened Arena

  function Times(k: Kind, n: nat): (code: seq<Kind>)
    ensures |code| == n && forall i :: 0 <= i < n ==> code[i] == k
  {
    seq(n, _ => k)
  }

  lemma NothingDone(tape: seq<Cell>, pol: Polarity)
    requires tape != []
    ensures Changed(tape, |tape| - 1, Signed(pol, Change(KindAt([], 0)))) == tape && Move(KindAt([], 0)) == 0
    ensures forall zero: bool {:trigger NextPc([], 0, zero)} :: NextPc([], 0, zero) == 0
  {
    assert tape[|tape| - 1 := tape[|tape| - 1]] == tape;
  }

  /** One cycle, in which the left program comes to `ptr`. */
  lemma OneCycle(a: seq<Kind>, pol: Polarity, st: State, cycles: nat, k: Kind, ptr: int, tape: seq<Cell>, left: nat, right: nat)
    requires Running(st) && st.pcB == 0 && st.ptrB == |st.tape| - 1 && 1 <= cycles <= 100000
    requires k == KindAt(a, st.pcA) && ptr == st.ptrA + Move(k) && tape == Changed(st.tape, ptr, Change(k))
    requires left == Flag(st.left, tape[0] == 0, !OnTape(tape, ptr)) && right == Flag(st.right, tape[|tape| - 1] == 0, false)
    ensures Run(Joust(a, [], pol), st, cycles) ==
              if left >= 2 || right >= 2 then Verdict(left, right)
              else Run(Joust(a, [], pol), State(NextPc(a, st.pcA, st.tape[st.ptrA] == 0), 0, ptr, st.ptrB, tape, left, right), cycles - 1)
  {
    NothingDone(tape, pol);
    var step := 100000 - (cycles - 1);
    assert Joust(a, [], pol)(st, cycles - 1) == JoustCycle(a, [], pol, st, step);
  }

  // Programs that change no cell.

  /** The right program stays where it is, and no cell has been changed. */
  function Calm(size: nat, pc: nat, ptr: int): State
    requires size >= 1
  {
    State(pc, 0, ptr, size - 1, Initial(size).tape, 0, 0)
  }

  /** The left program moves, or leaves the tape and loses; its own flag, the other flag and nothing else
      is not zero at the beginning. */
  lemma CalmCycle(a: seq<Kind>, pol: Polarity, size: nat, pc: nat, ptr: nat, cycles: nat)
    requires ptr < size && 1 <= cycles <= 100000 && Change(KindAt(a, pc)) == 0
    ensures var rule, next := Joust(a, [], pol), ptr + Move(KindAt(a, pc));
            Run(rule, Calm(size, pc, ptr), cycles) ==
              if !(0 <= next < size) then -1
              else Run(rule, Calm(size, NextPc(a, pc, 0 < ptr < size - 1), next), cycles - 1)
  {
    var st, next := Calm(size, pc, ptr), ptr + Move(KindAt(a, pc));
    CalmTape(size, ptr, next);
    OneCycle(a, pol, st, cycles, KindAt(a, pc), next, st.tape, if 0 <= next < size then 0 else 3, 0);
  }

  lemma CalmTape(size: nat, ptr: nat, next: int)
    requires ptr < size
    ensures var tape := Initial(size).tape;
            && tape[0] == 128 && tape[size - 1] == 128 && (tape[ptr] == 0 <==> 0 < ptr < size - 1)
            && Changed(tape, next, 0) == tape
  {
    var tape := Initial(size).tape;
    if 0 <= next < size { assert tape[next := tape[next]] == tape; }
  }

  lemma {:induction false} Steps(a: seq<Kind>, pol: Polarity, size: nat, from: nat, n: nat, d: int, ptr: nat, cycles: nat)
    requires ptr < size && n < cycles <= 100000 && (d == 1 || d == -1)
    requires from + n <= |a| && forall i :: from <= i < from + n ==> a[i] == if d == 1 then Right else Left
    ensures var rule := Joust(a, [], pol);
            Run(rule, Calm(size, from, ptr), cycles) ==
              if !(0 <= ptr + d * n < size) then -1
              else Run(rule, Calm(size, from + n, ptr + d * n), cycles - n)
    decreases n
  {
    if n > 0 {
      CalmCycle(a, pol, size, from, ptr, cycles);
      if 0 <= ptr + d < size { Steps(a, pol, size, from + 1, n - 1, d, ptr + d, cycles - 1); }
    }
  }

  lemma {:induction false} Rests(a: seq<Kind>, pol: Polarity, size: nat, ptr: nat, cycles: nat)
    requires ptr < size && cycles <= 100000
    ensures Run(Joust(a, [], pol), Calm(size, |a|, ptr), cycles) == 0
    decreases cycles
  {
    if cycles > 0 {
      CalmCycle(a, pol, size, |a|, ptr, cycles);
      Rests(a, pol, size, ptr, cycles - 1);
    }
  }

  /** `>` moves to the right, towards the other flag: a program loses if it moves on beyond it. */
  lemma Wanderer(n: nat, pol: Polarity, size: nat)
    requires 1 <= size && n < 100000
    ensures JoustScore(Times(Right, n), [], pol, size) == if n >= size then -1 else 0
  {
    var a := Times(Right, n);
    assert Initial(size) == Calm(size, 0, 0);
    Steps(a, pol, size, 0, n, 1, 0, MAXCYCLES);
    if n < size { Rests(a, pol, size, n, MAXCYCLES - n); }
  }

  /** `(>)*n [] (<)*(n+1)`. */
  function Prober(n: nat): seq<Kind>
  {
    Times(Right, n) + [Loop1, Loop2] + Times(Left, n + 1)
  }

  lemma {:induction false} Trapped(n: nat, pol: Polarity, size: nat, pc: nat, ptr: nat, cycles: nat)
    requires (ptr == 0 || ptr == size - 1) && ptr < size && cycles <= 100000 && (pc == n || pc == n + 1)
    ensures Run(Joust(Prober(n), [], pol), Calm(size, pc, ptr), cycles) == 0
    decreases cycles
  {
    if cycles > 0 {
      var a := Prober(n);
      assert a[n] == Loop1 && a[n + 1] == Loop2;
      CalmCycle(a, pol, size, pc, ptr, cycles);
      assert OpenOf(a, n + 1, 1) == n;
      Trapped(n, pol, size, n + 1, ptr, cycles - 1);
    }
  }

  /** A loop is left at once in between the flags, where all cells are zero, and never on one of them. */
  lemma Probe(n: nat, pol: Polarity, size: nat)
    requires n < size && 2 * n + 2 < 100000
    ensures JoustScore(Prober(n), [], pol, size) == if 0 < n < size - 1 then -1 else 0
  {
    var a := Prober(n);
    assert Initial(size) == Calm(size, 0, 0);
    Steps(a, pol, size, 0, n, 1, 0, MAXCYCLES);
    if 0 < n < size - 1 {
      assert a[n] == Loop1 && a[n + 1] == Loop2;
      CalmCycle(a, pol, size, n, n, MAXCYCLES - n);
      assert CloseOf(a, n + 1, 1) == n + 1;
      Steps(a, pol, size, n + 2, n + 1, -1, n, MAXCYCLES - n - 1);
    } else {
      Trapped(n, pol, size, n, n, MAXCYCLES - n);
    }
  }

  // A program that counts its own flag down.

  function Least(m: nat, n: nat): nat
  {
    if m < n then m else n
  }

  /** After `m` of `n` times `-`, and any number of cycles at rest. */
  function Lowered(size: nat, m: nat, zeros: nat): State
    requires size >= 2
  {
    State(m, 0, 0, size - 1, Initial(size).tape[0 := Wrap(128 - m)], zeros, 0)
  }

  lemma LowerCycle(n: nat, pol: Polarity, size: nat, m: nat, zeros: nat, cycles: nat)
    requires size >= 2 && m <= n && zeros <= 1 && 1 <= cycles <= 100000
    ensures var rule, m' := Joust(Times(Dec, n), [], pol), Least(m + 1, n);
            Run(rule, Lowered(size, m, zeros), cycles) ==
              if m' % 256 != 128 then Run(rule, Lowered(size, m', 0), cycles - 1)
              else if zeros == 1 then -1
              else Run(rule, Lowered(size, m', 1), cycles - 1)
  {
    var a, m', st := Times(Dec, n), Least(m + 1, n), Lowered(size, m, zeros);
    var k := KindAt(a, m);
    assert k == (if m < n then Dec else Done) && NextPc(a, m, st.tape[0] == 0) == m';
    LoweredTapes(size, m, m', k, zeros);
    OneCycle(a, pol, st, cycles, k, 0, Lowered(size, m', zeros).tape, if m' % 256 == 128 then zeros + 1 else 0, 0);
  }

  lemma WrapDown(x: int)
    ensures (x % 256 - 1) % 256 == (x - 1) % 256 && x % 256 % 256 == x % 256
  {
  }

  lemma ZeroAt(m: int)
    ensures (128 - m) % 256 == 0 <==> m % 256 == 128
  {
  }

  lemma LoweredTapes(size: nat, m: nat, m': nat, k: Kind, zeros: nat)
    requires size >= 2 && if k == Dec then m' == m + 1 else k == Done && m' == m
    ensures var tape := Lowered(size, m', zeros).tape;
            && Changed(Lowered(size, m, zeros).tape, 0, Change(k)) == tape
            && tape[size - 1] == 128 && (tape[0] == 0 <==> m' % 256 == 128)
  {
    var before, after := Lowered(size, m, zeros).tape, Lowered(size, m', zeros).tape;
    WrapDown(128 - m);
    ZeroAt(m');
    assert before[0] == (128 - m) % 256 && after[0] == (128 - m') % 256;
    assert Wrap(before[0] + Change(k)) == after[0];
    assert before[0 := after[0]] == after;
  }

  lemma {:induction false} Lowering(n: nat, pol: Polarity, size: nat, m: nat, cycles: nat)
    requires size >= 2 && m <= n && cycles <= 100000
    ensures Run(Joust(Times(Dec, n), [], pol), Lowered(size, m, if m % 256 == 128 then 1 else 0), cycles) ==
              if n % 256 == 128 && cycles > n - m then -1 else 0
    decreases cycles
  {
    if cycles > 0 {
      LowerCycle(n, pol, size, m, if m % 256 == 128 then 1 else 0, cycles);
      Lowering(n, pol, size, Least(m + 1, n), cycles - 1);
    }
  }

  /** A flag begins at 128, and counts modulo 256; it has to be zero in two cycles in a row, of which the
      second is at most the 100000th. */
  lemma Decrements(n: nat, pol: Polarity, size: nat)
    requires size >= 2
    ensures JoustScore(Times(Dec, n), [], pol, size) == if n % 256 == 128 && n < 100000 then -1 else 0
  {
    assert Initial(size) == Lowered(size, 0, 0);
    Lowering(n, pol, size, 0, MAXCYCLES);
  }
}
