/** Compilation to threaded code, in the two passes of the engine. */
module Compiler {
  import opened Ops
  import opened Loops
  import opened Parser
  import opened ThreadedCode

  /** An instruction follows the mate of a jump. */
  predicate Lands(s: seq<Op>, i: nat)
  {
    i < |s| && (Jumps(s[i].kind) || s[i].kind == IRep2) ==> 0 <= s[i].mate < |s| - 1
  }

  /** The first pass: where each instruction will begin, and how long the code will be. */
  method Layout(list: OpList) returns (offsets: array<nat>, len: nat)
    requires list.Valid()
    ensures fresh(offsets) && offsets.Length == list.len && len == Offset(list.Contents(), list.len)
    ensures forall i {:trigger offsets[i]} :: 0 <= i < list.len ==> offsets[i] == Offset(list.Contents(), i)
  {
    ghost var s := list.Contents();
    offsets := new nat[list.len];
    len := 0;
    for at := 0 to list.len
      invariant list.Contents() == s && len == Offset(s, at)
      invariant forall i {:trigger offsets[i]} :: 0 <= i < at ==> offsets[i] == Offset(s, i)
    {
      offsets[at] := len;
      var k := list.ops[at].kind;
      if k == IRep2 {
        len := len + 3;
      } else if k == Loop1 || k == Loop2 || k == Rep1 || k == Rep2 || k == IRep1 || k == Inner1 {
        len := len + 2;
      } else {
        len := len + 1;
      }
    }
  }

  /** The second pass, for one instruction. */
  method EmitOp(op: Op, at: nat, offsets: array<nat>, code: array<Word>, start: nat, ghost s: seq<Op>)
    returns (opc: nat)
    requires at < |s| && op == s[at] && Lands(s, at)
    requires offsets.Length == |s| && forall i {:trigger offsets[i]} :: 0 <= i < |s| ==> offsets[i] == Offset(s, i)
    requires start == Offset(s, at) && Offset(s, at + 1) <= code.Length
    modifies code
    ensures opc == Offset(s, at + 1) && code[..opc] == old(code[..start]) + Words(s, at)
  {
    opc := start;
    code[opc] := Xt(op.kind);
    opc := opc + 1;
    if op.kind == Loop1 || op.kind == Loop2 || op.kind == Rep2 || op.kind == Inner1 {
      code[opc] := Target(offsets[op.mate + 1]);
      opc := opc + 1;
    } else if op.kind == Rep1 || op.kind == IRep1 {
      code[opc] := Count(op.count);
      opc := opc + 1;
    } else if op.kind == IRep2 {
      code[opc] := Count(op.count);
      opc := opc + 1;
      code[opc] := Target(offsets[op.mate + 1]);
      opc := opc + 1;
    }
  }

  /** The second pass. */
  method Emit(list: OpList, offsets: array<nat>, len: nat, ghost s: seq<Op>) returns (code: array<Word>)
    requires list.Valid() && list.Contents() == s && len == Offset(s, |s|)
    requires forall i: nat {:trigger Lands(s, i)} :: Lands(s, i)
    requires offsets.Length == |s| && forall i {:trigger offsets[i]} :: 0 <= i < |s| ==> offsets[i] == Offset(s, i)
    ensures fresh(code) && code[..] == Threaded(s)
  {
    code := new Word[len];
    var opc: nat := 0;
    for at := 0 to list.len
      invariant list.Contents() == s && code.Length == len && fresh(code)
      invariant opc == Offset(s, at) <= code.Length && code[..opc] == Code(s, at)
      invariant forall i {:trigger offsets[i]} :: 0 <= i < |s| ==> offsets[i] == Offset(s, i)
    {
      if at + 1 < |s| { OffsetsIncrease(s, at + 1, |s|); }
      assert Lands(s, at);
      opc := EmitOp(list.ops[at], at, offsets, code, opc, s);
    }
    assert code[..] == code[..opc];
  }

  /** Jumps lead to the offset of the instruction after the mate. */
  method Compile(list: OpList) returns (code: array<Word>)
    requires list.Valid() && WellFormed(list.Contents())
    ensures fresh(code) && code[..] == Threaded(list.Contents())
  {
    ghost var s := list.Contents();
    forall i: nat {:trigger Lands(s, i)}
      ensures Lands(s, i)
    {
      if i < |s| && (Jumps(s[i].kind) || s[i].kind == IRep2) { MateBeforeEnd(s, i); }
    }
    var offsets, len := Layout(list);
    code := Emit(list, offsets, len, s);
  }
}
