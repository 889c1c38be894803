/** Layout of the native code: templates of machine code, copied one after the other and patched with
    counts and relative jumps. */
module WrenchCode {
  import opened Ops
  import opened Links
  import opened Loops
  import Compiler
  import opened Parser
  import opened ThreadedCode
  import opened Wrench

  /** One byte of the output: a byte of a template, or byte `k` of a 32-bit word stored over it. */
  datatype Byte = Plain(value: int) | Part(word: int, k: nat)

  /** Machine code of one variant of an instruction, with the positions of the words to patch or -1. */
  datatype Jit = Jit(code: seq<Byte>, rel: int, count: int)

  /** The assembled templates; the flag asks for the variant that saves or restores. */
  type Table = (Kind, bool) -> Jit

  predicate FieldIn(pos: int, n: nat)
  {
    pos == -1 || 0 <= pos <= n - 4
  }

  /** Words to patch lie inside their template, apart from each other, and only jumps and counted
      instructions have them. */
  predicate SoundJit(j: Jit, k: Kind)
  {
    && FieldIn(j.rel, |j.code|) && FieldIn(j.count, |j.code|)
    && (j.rel != -1 && j.count != -1 ==> j.rel + 4 <= j.count || j.count + 4 <= j.rel)
    && (j.rel != -1 ==> Jumps(k) || k == IRep2)
  }

  ghost predicate Sound(table: Table)
  {
    forall k: Kind, nested: bool {:trigger table(k, nested)} :: SoundJit(table(k, nested), k)
  }

  /** A word as it lies in memory. */
  function Word32(v: int): (r: seq<Byte>)
    ensures |r| == 4
  {
    [Part(v, 0), Part(v, 1), Part(v, 2), Part(v, 3)]
  }

  predicate Holds(bytes: seq<Byte>, pos: int, v: int)
  {
    && 0 <= pos <= |bytes| - 4
    && bytes[pos] == Part(v, 0) && bytes[pos + 1] == Part(v, 1) && bytes[pos + 2] == Part(v, 2) && bytes[pos + 3] == Part(v, 3)
  }

  function Patch(bytes: seq<Byte>, pos: int, v: int): (r: seq<Byte>)
    requires FieldIn(pos, |bytes|)
    ensures |r| == |bytes|
  {
    if pos == -1 then bytes else bytes[..pos] + Word32(v) + bytes[pos + 4..]
  }

  lemma PatchHolds(bytes: seq<Byte>, pos: int, v: int, other: int, w: int)
    requires FieldIn(pos, |bytes|) && FieldIn(other, |bytes|)
    ensures pos != -1 ==> Holds(Patch(bytes, pos, v), pos, v)
    ensures other != -1 && Holds(bytes, other, w) && (pos == -1 || other + 4 <= pos || pos + 4 <= other) ==>
              Holds(Patch(bytes, pos, v), other, w)
  {
  }

  /** The variants chosen for the instructions of `s`. */
  type Choice = nat -> Jit

  function Chosen(table: Table, s: seq<Op>): Choice
  {
    (i: nat) => if i < |s| then table(s[i].kind, Nested(s, i)) else Jit([], -1, -1)
  }

  ghost predicate SoundAt(jits: Choice, s: seq<Op>, i: nat)
  {
    i < |s| ==> SoundJit(jits(i), s[i].kind)
  }

  ghost predicate SoundChoice(jits: Choice, s: seq<Op>)
  {
    forall i: nat {:trigger SoundAt(jits, s, i)} :: SoundAt(jits, s, i)
  }

  lemma ChoiceSound(table: Table, s: seq<Op>)
    requires Sound(table)
    ensures SoundChoice(Chosen(table, s), s)
  {
  }

  /** Where the code of instruction `i` begins. */
  function CodeAt(jits: Choice, i: nat): nat
  {
    if i == 0 then 0 else CodeAt(jits, i - 1) + |jits(i - 1).code|
  }

  /** The code of one instruction, patched. */
  function Patched(j: Jit, disp: int, count: int): (r: seq<Byte>)
    requires FieldIn(j.rel, |j.code|) && FieldIn(j.count, |j.code|)
    ensures |r| == |j.code|
  {
    Patch(Patch(j.code, j.rel, disp), j.count, count)
  }

  /** The distance from the end of the patched word, where the processor counts from, to the
      instruction after the mate. */
  function Displacement(jits: Choice, s: seq<Op>, i: nat): int
    requires i < |s|
  {
    (if -1 <= s[i].mate then CodeAt(jits, s[i].mate + 1) else 0) - (CodeAt(jits, i) + jits(i).rel + 4)
  }

  function OpBytes(jits: Choice, s: seq<Op>, i: nat): (r: seq<Byte>)
    requires i < |s| && SoundChoice(jits, s)
    ensures |r| == |jits(i).code|
  {
    assert SoundAt(jits, s, i);
    Patched(jits(i), Displacement(jits, s, i), s[i].count)
  }

  /** The code of the first `n` instructions. */
  function Laid(jits: Choice, s: seq<Op>, n: nat): (r: seq<Byte>)
    requires n <= |s| && SoundChoice(jits, s)
    ensures |r| == CodeAt(jits, n)
  {
    if n == 0 then [] else Laid(jits, s, n - 1) + OpBytes(jits, s, n - 1)
  }

  lemma {:induction false} OpBytesAt(jits: Choice, s: seq<Op>, n: nat, i: nat)
    requires i < n <= |s| && SoundChoice(jits, s)
    ensures CodeAt(jits, i + 1) <= |Laid(jits, s, n)|
    ensures Laid(jits, s, n)[CodeAt(jits, i)..CodeAt(jits, i + 1)] == OpBytes(jits, s, i)
    decreases n
  {
    var before, last := Laid(jits, s, n - 1), OpBytes(jits, s, n - 1);
    var lo, hi := CodeAt(jits, i), CodeAt(jits, i + 1);
    assert Laid(jits, s, n) == before + last;
    if i < n - 1 {
      OpBytesAt(jits, s, n - 1, i);
      SliceBefore(before, last, lo, hi);
    } else {
      SliceLast(before, last);
    }
  }

  lemma SliceBefore(a: seq<Byte>, b: seq<Byte>, lo: nat, hi: nat)
    requires lo <= hi <= |a|
    ensures (a + b)[lo..hi] == a[lo..hi]
  {
  }

  lemma SliceLast(a: seq<Byte>, b: seq<Byte>)
    ensures (a + b)[|a|..|a| + |b|] == b
  {
  }

  lemma HoldsWithin(bytes: seq<Byte>, lo: nat, hi: nat, piece: seq<Byte>, pos: int, v: int)
    requires lo <= hi <= |bytes| && bytes[lo..hi] == piece && Holds(piece, pos, v)
    ensures Holds(bytes, lo + pos, v)
  {
    var k: nat := pos;
    assert piece[k] == bytes[lo + k] && piece[k + 1] == bytes[lo + k + 1];
    assert piece[k + 2] == bytes[lo + k + 2] && piece[k + 3] == bytes[lo + k + 3];
  }

  lemma PatchedHolds(j: Jit, k: Kind, disp: int, count: int)
    requires SoundJit(j, k)
    ensures j.rel != -1 ==> Holds(Patched(j, disp, count), j.rel, disp)
    ensures j.count != -1 ==> Holds(Patched(j, disp, count), j.count, count)
  {
    PatchHolds(j.code, j.rel, disp, -1, 0);
    PatchHolds(Patch(j.code, j.rel, disp), j.count, count, j.rel, disp);
  }

  lemma OpHolds(jits: Choice, s: seq<Op>, i: nat)
    requires SoundChoice(jits, s) && i < |s|
    ensures jits(i).rel != -1 ==> Holds(OpBytes(jits, s, i), jits(i).rel, Displacement(jits, s, i))
    ensures jits(i).count != -1 ==> Holds(OpBytes(jits, s, i), jits(i).count, s[i].count)
  {
    assert SoundAt(jits, s, i);
    PatchedHolds(jits(i), s[i].kind, Displacement(jits, s, i), s[i].count);
  }

  /** The code of instruction `i` stands where it belongs. */
  ghost predicate PieceAt(bytes: seq<Byte>, jits: Choice, s: seq<Op>, i: nat)
    requires SoundChoice(jits, s)
  {
    i < |s| ==>
      CodeAt(jits, i + 1) <= |bytes| && bytes[CodeAt(jits, i)..CodeAt(jits, i + 1)] == OpBytes(jits, s, i)
  }

  /** `bytes` is the code of all instructions, one after the other. */
  ghost predicate LaidOut(bytes: seq<Byte>, jits: Choice, s: seq<Op>)
    requires SoundChoice(jits, s)
  {
    |bytes| == CodeAt(jits, |s|) && forall i: nat {:trigger PieceAt(bytes, jits, s, i)} :: PieceAt(bytes, jits, s, i)
  }

  lemma LaidIsLaidOut(jits: Choice, s: seq<Op>)
    requires SoundChoice(jits, s)
    ensures LaidOut(Laid(jits, s, |s|), jits, s)
  {
    var bytes := Laid(jits, s, |s|);
    forall i: nat {:trigger PieceAt(bytes, jits, s, i)}
      ensures PieceAt(bytes, jits, s, i)
    {
      if i < |s| { OpBytesAt(jits, s, |s|, i); }
    }
  }

  lemma WordHeld(bytes: seq<Byte>, jits: Choice, s: seq<Op>, i: nat, pos: int, v: int)
    requires SoundChoice(jits, s) && LaidOut(bytes, jits, s) && i < |s| && Holds(OpBytes(jits, s, i), pos, v)
    ensures Holds(bytes, CodeAt(jits, i) + pos, v)
  {
    assert PieceAt(bytes, jits, s, i);
    HoldsWithin(bytes, CodeAt(jits, i), CodeAt(jits, i + 1), OpBytes(jits, s, i), pos, v);
  }

  /** The count of a repeat is stored in its code. */
  lemma CountHeld(bytes: seq<Byte>, jits: Choice, s: seq<Op>, i: nat)
    requires SoundChoice(jits, s) && LaidOut(bytes, jits, s) && i < |s| && jits(i).count != -1
    ensures Holds(bytes, CodeAt(jits, i) + jits(i).count, s[i].count)
  {
    OpHolds(jits, s, i);
    WordHeld(bytes, jits, s, i, jits(i).count, s[i].count);
  }

  /** Every jump leads to the first byte of the instruction after its mate. */
  lemma JumpLands(bytes: seq<Byte>, jits: Choice, s: seq<Op>, i: nat) returns (disp: int)
    requires WellFormed(s) && SoundChoice(jits, s) && LaidOut(bytes, jits, s) && i < |s| && jits(i).rel != -1
    ensures 0 <= s[i].mate < |s| - 1
    ensures var pos := CodeAt(jits, i) + jits(i).rel;
            Holds(bytes, pos, disp) && pos + 4 + disp == CodeAt(jits, s[i].mate + 1)
  {
    assert SoundAt(jits, s, i);
    MateBeforeEnd(s, i);
    disp := Displacement(jits, s, i);
    OpHolds(jits, s, i);
    WordHeld(bytes, jits, s, i, jits(i).rel, disp);
  }

  lemma {:induction false} CodeGrows(jits: Choice, i: nat, j: nat)
    requires i <= j
    ensures CodeAt(jits, i) <= CodeAt(jits, j)
    decreases j
  {
    if i < j { CodeGrows(jits, i, j - 1); }
  }

  lemma AllLand(s: seq<Op>)
    requires WellFormed(s)
    ensures forall i: nat {:trigger Compiler.Lands(s, i)} :: Compiler.Lands(s, i)
  {
    forall i: nat {:trigger Compiler.Lands(s, i)}
      ensures Compiler.Lands(s, i)
    {
      if i < |s| && (Jumps(s[i].kind) || s[i].kind == IRep2) { MateBeforeEnd(s, i); }
    }
  }

  /** What an instruction does to the depth. */
  function Opnest(k: Kind): int
  {
    if k == Rep1 || k == IRep1 || k == Inner2 then 1
    else if k == Rep2 || k == Inner1 || k == IRep2 then -1
    else 0
  }

  /** The choice of a variant, in either pass. */
  method Choose(table: Table, k: Kind, before: int, ghost s: seq<Op>, ghost at: nat, ghost jits: Choice)
    returns (j: Jit, depth: int)
    requires at < |s| && k == s[at].kind && before == Depth(s, at) && jits == Chosen(table, s)
    ensures j == jits(at) && depth == Depth(s, at + 1)
  {
    depth := before;
    if Opnest(k) < 0 { depth := depth - 1; }
    var nested := Opnest(k) != 0 && depth > 0;
    assert nested == Nested(s, at);
    j := table(k, nested);
    if Opnest(k) > 0 { depth := depth + 1; }
  }

  /** The first pass: where each instruction goes, and how long the code is. */
  method Measure(list: OpList, table: Table, ghost s: seq<Op>, ghost jits: Choice) returns (codes: array<nat>, size: nat)
    requires list.Valid() && list.Contents() == s && jits == Chosen(table, s)
    ensures fresh(codes) && codes.Length == |s| && size == CodeAt(jits, |s|)
    ensures forall i {:trigger codes[i]} :: 0 <= i < |s| ==> codes[i] == CodeAt(jits, i)
  {
    codes := new nat[list.len];
    size := 0;
    var depth := 0;
    for at := 0 to list.len
      invariant list.Contents() == s && size == CodeAt(jits, at) && depth == Depth(s, at)
      invariant forall i {:trigger codes[i]} :: 0 <= i < at ==> codes[i] == CodeAt(jits, i)
    {
      codes[at] := size;
      var j;
      j, depth := Choose(table, list.ops[at].kind, depth, s, at, jits);
      size := size + |j.code|;
    }
  }

  /** Stores a 32-bit word at `start + pos`, in the piece of code that begins at `start`. */
  method Store(base: array<Byte>, start: nat, pos: int, v: int, ghost before: seq<Byte>, ghost piece: seq<Byte>)
    requires start == |before| && start + |piece| <= base.Length && base[..start + |piece|] == before + piece
    requires 0 <= pos <= |piece| - 4
    modifies base
    ensures base[..start + |piece|] == before + Patch(piece, pos, v)
  {
    var p := start + pos;
    base[p], base[p + 1], base[p + 2], base[p + 3] := Part(v, 0), Part(v, 1), Part(v, 2), Part(v, 3);
    forall k | 0 <= k < start + |piece|
      ensures base[k] == (before + Patch(piece, pos, v))[k]
    {
      assert old(base[..start + |piece|])[k] == (before + piece)[k];
    }
  }

  method Copy(base: array<Byte>, start: nat, code: seq<Byte>)
    requires start + |code| <= base.Length
    modifies base
    ensures base[..start + |code|] == old(base[..start]) + code
  {
    for k := 0 to |code|
      invariant base[..start + k] == old(base[..start]) + code[..k]
    {
      base[start + k] := code[k];
    }
  }

  /** Copies a template and patches it. */
  method EmitOp(base: array<Byte>, start: nat, j: Jit, target: int, count: int)
    requires FieldIn(j.rel, |j.code|) && FieldIn(j.count, |j.code|) && start + |j.code| <= base.Length
    modifies base
    ensures base[..start + |j.code|] == old(base[..start]) + Patched(j, target - (start + j.rel + 4), count)
  {
    ghost var before := base[..start];
    Copy(base, start, j.code);
    var disp := target - (start + j.rel + 4);
    ghost var jumped := Patch(j.code, j.rel, disp);
    if j.rel != -1 { Store(base, start, j.rel, disp, before, j.code); }
    if j.count != -1 { Store(base, start, j.count, count, before, jumped); }
  }

  lemma PatchedAlike(j: Jit, disp: int, other: int, count: int)
    requires FieldIn(j.rel, |j.code|) && FieldIn(j.count, |j.code|) && (j.rel == -1 || disp == other)
    ensures Patched(j, disp, count) == Patched(j, other, count)
  {
  }

  /** The second pass, for one instruction. */
  method EmitNext(base: array<Byte>, codes: array<nat>, op: Op, j: Jit, at: nat, ghost s: seq<Op>, ghost jits: Choice)
    requires at < |s| && op == s[at] && SoundChoice(jits, s) && j == jits(at) && Compiler.Lands(s, at)
    requires codes.Length == |s| && forall i {:trigger codes[i]} :: 0 <= i < |s| ==> codes[i] == CodeAt(jits, i)
    requires base.Length == CodeAt(jits, |s|)
    modifies base
    ensures CodeAt(jits, at + 1) <= base.Length
    ensures base[..CodeAt(jits, at + 1)] == old(base[..CodeAt(jits, at)]) + OpBytes(jits, s, at)
  {
    CodeGrows(jits, at + 1, |s|);
    assert SoundAt(jits, s, at);
    var start := codes[at];
    var target: nat := 0;
    if j.rel != -1 { target := codes[op.mate + 1]; }
    EmitOp(base, start, j, target, op.count);
    PatchedAlike(j, target - (start + j.rel + 4), Displacement(jits, s, at), op.count);
  }

  /** The second pass. */
  method EmitAll(list: OpList, table: Table, codes: array<nat>, size: nat, ghost s: seq<Op>, ghost jits: Choice)
    returns (base: array<Byte>)
    requires list.Valid() && list.Contents() == s && jits == Chosen(table, s) && SoundChoice(jits, s) && size == CodeAt(jits, |s|)
    requires forall i: nat {:trigger Compiler.Lands(s, i)} :: Compiler.Lands(s, i)
    requires codes.Length == |s| && forall i {:trigger codes[i]} :: 0 <= i < |s| ==> codes[i] == CodeAt(jits, i)
    ensures fresh(base) && base[..] == Laid(jits, s, |s|)
  {
    base := new Byte[size];
    var depth := 0;
    ghost var end: nat := 0;
    for at := 0 to list.len
      invariant list.Contents() == s && base.Length == size && fresh(base) && depth == Depth(s, at)
      invariant end == CodeAt(jits, at) <= size && base[..end] == Laid(jits, s, at)
      invariant forall i {:trigger codes[i]} :: 0 <= i < |s| ==> codes[i] == CodeAt(jits, i)
    {
      assert Compiler.Lands(s, at);
      var j;
      j, depth := Choose(table, list.ops[at].kind, depth, s, at, jits);
      EmitNext(base, codes, list.ops[at], j, at, s, jits);
      end := CodeAt(jits, at + 1);
    }
    assert base[..] == base[..end];
  }

  /** Both passes choose the same variants, so that every instruction is written where the first pass
      put it. */
  method Compile(list: OpList, table: Table) returns (base: array<Byte>)
    requires list.Valid() && WellFormed(list.Contents()) && Sound(table)
    ensures fresh(base) && SoundChoice(Chosen(table, list.Contents()), list.Contents())
    ensures LaidOut(base[..], Chosen(table, list.Contents()), list.Contents())
  {
    ghost var s := list.Contents();
    ghost var jits := Chosen(table, s);
    ChoiceSound(table, s);
    AllLand(s);
    var codes, size := Measure(list, table, s, jits);
    base := EmitAll(list, table, codes, size, s, jits);
    LaidIsLaidOut(jits, s);
  }
}
