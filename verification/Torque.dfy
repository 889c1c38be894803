/** The other native code compiler: the same layout, with one variant of each instruction. */
module Torque {
  import opened Ops
  import opened Links
  import opened Loops
  import Compiler
  import opened Parser
  import opened ThreadedCode
  import opened WrenchCode

  /** The templates of one side. */
  type Templates = Kind -> Jit

  function Uniform(table: Templates, s: seq<Op>): Choice
  {
    (i: nat) => if i < |s| then table(s[i].kind) else Jit([], -1, -1)
  }

  ghost predicate SoundTemplates(table: Templates)
  {
    forall k: Kind {:trigger table(k)} :: SoundJit(table(k), k)
  }

  lemma UniformSound(table: Templates, s: seq<Op>)
    requires SoundTemplates(table)
    ensures SoundChoice(Uniform(table, s), s)
  {
  }

  /** The first pass. */
  method Measure(list: OpList, table: Templates, ghost s: seq<Op>, ghost jits: Choice) returns (codes: array<nat>, size: nat)
    requires list.Valid() && list.Contents() == s && jits == Uniform(table, s)
    ensures fresh(codes) && codes.Length == |s| && size == CodeAt(jits, |s|)
    ensures forall i {:trigger codes[i]} :: 0 <= i < |s| ==> codes[i] == CodeAt(jits, i)
  {
    codes := new nat[list.len];
    size := 0;
    for at := 0 to list.len
      invariant list.Contents() == s && size == CodeAt(jits, at)
      invariant forall i {:trigger codes[i]} :: 0 <= i < at ==> codes[i] == CodeAt(jits, i)
    {
      codes[at] := size;
      size := size + |table(list.ops[at].kind).code|;
    }
  }

  /** The second pass. */
  method EmitAll(list: OpList, table: Templates, codes: array<nat>, size: nat, ghost s: seq<Op>, ghost jits: Choice)
    returns (base: array<Byte>)
    requires list.Valid() && list.Contents() == s && jits == Uniform(table, s) && SoundChoice(jits, s) && size == CodeAt(jits, |s|)
    requires forall i: nat {:trigger Compiler.Lands(s, i)} :: Compiler.Lands(s, i)
    requires codes.Length == |s| && forall i {:trigger codes[i]} :: 0 <= i < |s| ==> codes[i] == CodeAt(jits, i)
    ensures fresh(base) && base[..] == Laid(jits, s, |s|)
  {
    base := new Byte[size];
    ghost var end: nat := 0;
    for at := 0 to list.len
      invariant list.Contents() == s && base.Length == size && fresh(base)
      invariant end == CodeAt(jits, at) <= size && base[..end] == Laid(jits, s, at)
      invariant forall i {:trigger codes[i]} :: 0 <= i < |s| ==> codes[i] == CodeAt(jits, i)
    {
      assert Compiler.Lands(s, at);
      EmitNext(base, codes, list.ops[at], table(list.ops[at].kind), at, s, jits);
      end := CodeAt(jits, at + 1);
    }
    assert base[..] == base[..end];
  }

  /** Every instruction is written where the first pass put it; `JumpLands` and `CountHeld` say what
      that means for jumps and counts. */
  method Compile(list: OpList, table: Templates) returns (base: array<Byte>)
    requires list.Valid() && WellFormed(list.Contents()) && SoundTemplates(table)
    ensures fresh(base) && SoundChoice(Uniform(table, list.Contents()), list.Contents())
    ensures LaidOut(base[..], Uniform(table, list.Contents()), list.Contents())
  {
    ghost var s := list.Contents();
    ghost var jits := Uniform(table, s);
    UniformSound(table, s);
    AllLand(s);
    var codes, size := Measure(list, table, s, jits);
    base := EmitAll(list, table, codes, size, s, jits);
    LaidIsLaidOut(jits, s);
  }
}
