/** Instructions of a BF Joust program, as the parser and every back end see them. */
module Ops {
  import opened Nest

  const MAXCYCLES := 100000
  const MAXNEST := 4096

  datatype Kind =
    | Inc | Dec | Left | Right | Wait
    | Loop1 | Loop2                       // [ ]
    | Rep1 | Rep2                         // ( ) without braces
    | IRep1 | Inner1 | Inner2 | IRep2     // ( { } ) with braces
    | Done                                // end of the program

  /** `mate` and `inner` are positions in the list, or -1; `count` is the repetition count. */
  datatype Op = Op(kind: Kind, mate: int, inner: int, count: int)

  /** Instructions that take a cycle; the others only steer repetition. */
  predicate Costed(k: Kind)
  {
    k.Inc? || k.Dec? || k.Left? || k.Right? || k.Wait? || k.Loop1? || k.Loop2? || k.Done?
  }

  /** Repeat instructions that save the running counter: `(` and `}`. */
  predicate Opens(k: Kind)
  {
    k.Rep1? || k.IRep1? || k.Inner2?
  }

  /** Repeat instructions that restore it: `)` and `{`. */
  predicate Closes(k: Kind)
  {
    k.Rep2? || k.Inner1? || k.IRep2?
  }

  /** The tokens of a paren that has a brace. */
  predicate Braced(k: Kind)
  {
    k.IRep1? || k.Inner1? || k.Inner2? || k.IRep2?
  }

  /** Pairs of the counted halves: `(..)`, `(..{` and `}..)`. */
  function Halves(ops: seq<Op>): (ps: seq<int>)
    ensures |ps| == |ops|
  {
    seq(|ops|, i requires 0 <= i < |ops| => if Costed(ops[i].kind) then -1 else ops[i].mate)
  }

  function BlockPartner(o: Op): int
  {
    if o.kind.Rep1? || o.kind.Rep2? then o.mate
    else if Braced(o.kind) then o.inner
    else -1
  }

  /** Pairs of the written blocks: `(..)` and `{..}`. */
  function Blocks(ops: seq<Op>): (ps: seq<int>)
    ensures |ps| == |ops|
  {
    seq(|ops|, i requires 0 <= i < |ops| => BlockPartner(ops[i]))
  }

  function BracketPartner(o: Op): int
  {
    if o.kind.Loop1? || o.kind.Loop2? then o.mate else BlockPartner(o)
  }

  /** Pairs of the written blocks together with `[..]`. */
  function Brackets(ops: seq<Op>): (ps: seq<int>)
    ensures |ps| == |ops|
  {
    seq(|ops|, i requires 0 <= i < |ops| => BracketPartner(ops[i]))
  }

  function Delta(k: Kind): int
  {
    if Opens(k) then 1 else if Closes(k) then -1 else 0
  }

  /** Static nesting depth before position `i`: counted halves opened minus halves closed. */
  function Depth(ops: seq<Op>, i: nat): int
    requires i <= |ops|
  {
    if i == 0 then 0 else Depth(ops, i - 1) + Delta(ops[i - 1].kind)
  }

  /** How many more instructions `open` than `close` stand before position `i`. */
  function Unclosed(ops: seq<Op>, open: Kind, close: Kind, i: nat): int
    requires i <= |ops|
  {
    if i == 0 then 0
    else
      var k := ops[i - 1].kind;
      Unclosed(ops, open, close, i - 1) + if k == open then 1 else if k == close then -1 else 0
  }

  /** The most that are open at once among the first `n` instructions. */
  function Deepest(ops: seq<Op>, open: Kind, close: Kind, n: nat): int
    requires n <= |ops|
  {
    if n == 0 then 0
    else
      var before, now := Deepest(ops, open, close, n - 1), Unclosed(ops, open, close, n);
      if now > before then now else before
  }

  /** More of them are open at once than the parser's stack can hold. */
  predicate TooDeep(ops: seq<Op>, open: Kind, close: Kind)
  {
    Deepest(ops, open, close, |ops|) > MAXNEST
  }

  /** So far they fit on the stack, and `height` of them are open. */
  predicate Fits(ops: seq<Op>, open: Kind, close: Kind, n: nat, height: nat)
    requires n <= |ops|
  {
    Unclosed(ops, open, close, n) == height && Deepest(ops, open, close, n) <= MAXNEST
  }

  lemma OpensTooMany(ops: seq<Op>, open: Kind, close: Kind, n: nat, height: nat)
    requires n < |ops| && ops[n].kind == open && Fits(ops, open, close, n, height) && height >= MAXNEST
    ensures TooDeep(ops, open, close)
  {
    DeepestGrows(ops, open, close, n + 1, |ops|);
  }

  lemma {:induction false} DeepestGrows(ops: seq<Op>, open: Kind, close: Kind, i: nat, n: nat)
    requires i <= n <= |ops|
    ensures Deepest(ops, open, close, i) <= Deepest(ops, open, close, n)
    decreases n
  {
    if i < n { DeepestGrows(ops, open, close, i, n - 1); }
  }

  /** The repeat stack of the engines is deep enough. */
  ghost predicate Shallow(ops: seq<Op>)
  {
    forall i: nat {:trigger Depth(ops, i)} :: i <= |ops| ==> Depth(ops, i) <= MAXNEST
  }
}
