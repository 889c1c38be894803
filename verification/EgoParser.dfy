/** The reference interpreter's own parser: it links the tokens in one pass, with one stack for parens, one for
    braces and one stack of loops for each block. */
module EgoParser {
  import opened Nest
  import opened Ops
  import opened Links
  import opened Loops
  import opened Binding
  import opened Skipping

  /** A command; a link that is not known yet is -1. */
  datatype Cmd = Cmd(kind: Kind, jmp: int, start: int, end: int, cbstart: int, cbend: int, ct: int)

  // The positions that a pairing leaves open.

  /** The openers before `at` that end at `at` or later, outermost first. */
  function Open(ps: seq<int>, at: nat): seq<nat>
    requires at <= |ps|
  {
    if at == 0 then []
    else
      var before, p := Open(ps, at - 1), ps[at - 1];
      if p >= at then before + [at - 1]
      else if 0 <= p && before != [] then before[..|before| - 1]
      else before
  }

  /** `i` is open before `at`. */
  predicate IsOpen(ps: seq<int>, at: nat, i: nat)
    requires at <= |ps|
  {
    i < at && ps[i] >= at
  }

  ghost predicate OpenExactly(ps: seq<int>, at: nat, st: seq<nat>)
    requires at <= |ps|
  {
    Increasing(st) && forall i: nat {:trigger IsOpen(ps, at, i)} :: i in st <==> IsOpen(ps, at, i)
  }

  lemma OpenLater(ps: seq<int>, at: nat, i: nat)
    requires Paired(ps, |ps|) && at < |ps|
    ensures IsOpen(ps, at + 1, i) <==> (if i == at then ps[at] > at else IsOpen(ps, at, i) && ps[at] != i)
  {
    assert Joined(ps, |ps|, at);
    if i < |ps| { assert Joined(ps, |ps|, i); }
  }

  lemma {:induction false} OpenIs(ps: seq<int>, at: nat)
    requires Paired(ps, |ps|) && at <= |ps|
    ensures OpenExactly(ps, at, Open(ps, at))
    decreases at
  {
    if at > 0 {
      var n: nat := at - 1;
      var st := Open(ps, n);
      OpenIs(ps, n);
      forall i: nat {:trigger IsOpen(ps, at, i)}
        ensures IsOpen(ps, at, i) <==> (if i == n then ps[n] > n else i in st && ps[n] != i)
      {
        OpenLater(ps, n, i);
        assert i in st <==> IsOpen(ps, n, i);
      }
      assert Joined(ps, |ps|, n) && !IsOpen(ps, n, n);
      if ps[n] > n {
        forall y | y in st
          ensures y < n
        {
          assert IsOpen(ps, n, y);
        }
        AppendLargest(st, n);
      } else if ps[n] >= 0 {
        TopEnds(ps, n);
        var rest, o: nat := st[..|st| - 1], ps[n];
        assert st == rest + [o];
        LastIsLargest(rest, o);
        assert forall i: nat :: i in st <==> i in rest || i == o;
      }
    }
  }

  /** A closer ends the position that was opened last. */
  lemma {:induction false} TopEnds(ps: seq<int>, at: nat)
    requires Paired(ps, |ps|) && at < |ps| && 0 <= ps[at] < at && OpenExactly(ps, at, Open(ps, at))
    ensures Open(ps, at) != [] && Open(ps, at)[|Open(ps, at)| - 1] == ps[at]
  {
    var st, o: nat := Open(ps, at), ps[at];
    assert Joined(ps, |ps|, at) && IsOpen(ps, at, o);
    forall x | x in st
      ensures x <= o
    {
      assert IsOpen(ps, at, x) && Apart(ps, o, x) && Joined(ps, |ps|, x);
    }
    var k :| 0 <= k < |st| && st[k] == o;
    assert Ordered(st, k, |st| - 1) && st[|st| - 1] in st;
  }

  lemma OpenTop(ps: seq<int>, at: nat)
    requires Paired(ps, |ps|) && at < |ps| && 0 <= ps[at] < at
    ensures Open(ps, at) != [] && Open(ps, at)[|Open(ps, at)| - 1] == ps[at]
    ensures Open(ps, at + 1) == Open(ps, at)[..|Open(ps, at)| - 1]
  {
    OpenIs(ps, at);
    TopEnds(ps, at);
  }

  // The stacks, for tokens that can be linked and nested: `t` is the list with all its links.

  function ParenPairs(t: seq<Op>): (ps: seq<int>)
    ensures |ps| == |t|
  {
    seq(|t|, i requires 0 <= i < |t| =>
      if Token(t[i].kind) == Rep1 || Token(t[i].kind) == Rep2 then BlockPartner(t[i]) else -1)
  }

  function BracePairs(t: seq<Op>): (ps: seq<int>)
    ensures |ps| == |t|
  {
    seq(|t|, i requires 0 <= i < |t| => if t[i].kind == Inner1 || t[i].kind == Inner2 then t[i].inner else -1)
  }

  /** Some of the pairs are paired properly, too. */
  lemma SomePairs(ps: seq<int>, qs: seq<int>)
    requires Paired(ps, |ps|) && |qs| == |ps|
    requires forall i: nat {:trigger qs[i]} :: i < |qs| ==> qs[i] == -1 || (qs[i] == ps[i] && 0 <= ps[i] < |ps| && qs[ps[i]] == i)
    ensures Paired(qs, |qs|)
  {
    forall i: nat {:trigger Joined(qs, |qs|, i)} | i < |qs|
      ensures Joined(qs, |qs|, i)
    {
      assert Joined(ps, |ps|, i);
    }
    forall i: nat, j: nat {:trigger Apart(qs, i, j)} | i < |qs| && j < |qs|
      ensures Apart(qs, i, j)
    {
      assert Apart(ps, i, j);
    }
  }

  lemma PairsPaired(t: seq<Op>)
    requires Linked(t)
    ensures Paired(ParenPairs(t), |t|) && Paired(BracePairs(t), |t|)
  {
    var bs, ps, qs := Blocks(t), ParenPairs(t), BracePairs(t);
    forall i: nat {:trigger ps[i]} {:trigger qs[i]} | i < |t|
      ensures ps[i] == -1 || (ps[i] == bs[i] && 0 <= bs[i] < |t| && ps[bs[i]] == i)
      ensures qs[i] == -1 || (qs[i] == bs[i] && 0 <= bs[i] < |t| && qs[bs[i]] == i)
    {
      assert LinkedAt(t, i);
    }
    SomePairs(bs, ps);
    SomePairs(bs, qs);
  }

  /** Of the open brackets and blocks `st`: the brackets opened since the innermost block. */
  function LoopsOf(t: seq<Op>, st: seq<nat>): seq<nat>
  {
    if st == [] then []
    else
      var x := st[|st| - 1];
      if x < |t| && IsLoop(t[x].kind) then LoopsOf(t, st[..|st| - 1]) + [x] else []
  }

  /** The brackets of the blocks further out. */
  function LoopsesOf(t: seq<Op>, st: seq<nat>): seq<seq<nat>>
  {
    if st == [] then []
    else
      var x, outer := st[|st| - 1], st[..|st| - 1];
      if x < |t| && IsLoop(t[x].kind) then LoopsesOf(t, outer) else LoopsesOf(t, outer) + [LoopsOf(t, outer)]
  }

  /** A position that has been read, or nothing. */
  function Known(x: int, at: nat): int
  {
    if x < at then x else -1
  }

  function Plain(k: Kind): Cmd
  {
    Cmd(k, -1, -1, -1, -1, -1, -1)
  }

  /** Command `i` when the tokens before `at` have been read. */
  function CmdAt(t: seq<Op>, i: nat, at: nat): Cmd
    requires i < |t|
  {
    var o := t[i];
    var c := Plain(Token(o.kind));
    match o.kind
    case Loop1 => c.(jmp := Known(o.mate, at))
    case Loop2 => c.(jmp := o.mate)
    case Rep1 => c.(end := Known(o.mate, at), ct := if o.mate < at then o.count else -1)
    case Rep2 => c.(start := o.mate)
    case IRep1 =>
      c.(end := Known(o.inner, at), ct := if o.inner < at then o.count else -1,
         cbstart := Known(o.mate, at), cbend := Known(if 0 <= o.mate < |t| then t[o.mate].inner else -1, at))
    case IRep2 => c.(start := o.inner)
    case Inner1 => c.(start := o.mate)
    case Inner2 => c.(start := if 0 <= o.inner < |t| then t[o.inner].mate else -1)
    case _ => c
  }

  function Cmds(t: seq<Op>, at: nat): (cs: seq<Cmd>)
    requires at <= |t|
    ensures |cs| == at
  {
    seq(at, i requires 0 <= i < at => CmdAt(t, i, at))
  }

  /** What the parser has when the tokens before `at` have been read. */
  datatype Reading = Reading(ret: seq<Cmd>, parens: seq<nat>, braces: seq<nat>, loops: seq<nat>, loopses: seq<seq<nat>>, fine: bool)

  function ReadingAt(t: seq<Op>, at: nat): Reading
    requires at <= |t|
  {
    var st := Open(Brackets(t), at);
    Reading(Cmds(t, at), Open(ParenPairs(t), at), Open(BracePairs(t), at), LoopsOf(t, st), LoopsesOf(t, st), true)
  }

  // One token more.

  /** The earlier command that a token completes. */
  function Owner(t: seq<Op>, at: nat): int
    requires at < |t|
  {
    var o := t[at];
    match o.kind
    case Loop2 => o.mate
    case Rep2 => o.mate
    case IRep2 => o.inner
    case Inner1 => o.mate
    case Inner2 => if 0 <= o.inner < |t| then t[o.inner].mate else -1
    case _ => -1
  }

  function Completed(c: Cmd, o: Op, at: nat): Cmd
  {
    match o.kind
    case Loop2 => c.(jmp := at)
    case Rep2 => c.(end := at, ct := o.count)
    case IRep2 => c.(end := at, ct := o.count)
    case Inner1 => c.(cbstart := at)
    case Inner2 => c.(cbend := at)
    case _ => c
  }

  lemma OwnerOf(t: seq<Op>, at: nat)
    requires Linked(t) && Bracketing(t, Brackets(t)) && at < |t|
    ensures Owner(t, at) == -1 || 0 <= Owner(t, at) < at
    ensures t[at].kind == Loop2 || Token(t[at].kind) == Rep2 || t[at].kind == Inner1 || t[at].kind == Inner2 ==> Owner(t, at) >= 0
  {
    assert LinkedAt(t, at) && BracketAt(t, Brackets(t), at);
    if t[at].kind == Inner2 { assert LinkedAt(t, t[at].inner); }
  }

  lemma CmdLater(t: seq<Op>, i: nat, at: nat)
    requires Linked(t) && Bracketing(t, Brackets(t)) && i < at < |t|
    ensures CmdAt(t, i, at + 1) == if i == Owner(t, at) then Completed(CmdAt(t, i, at), t[at], at) else CmdAt(t, i, at)
  {
    assert LinkedAt(t, at) && LinkedAt(t, i) && BracketAt(t, Brackets(t), at) && BracketAt(t, Brackets(t), i);
    if IsLoop(t[i].kind) {
      LoopLater(t, i, at);
    } else if t[i].kind == IRep1 {
      ParenLater(t, i, at);
    } else if Braced(t[at].kind) {
      HeadOf(t, at);
    }
  }

  lemma LoopLater(t: seq<Op>, i: nat, at: nat)
    requires Linked(t) && Bracketing(t, Brackets(t)) && i < at < |t| && IsLoop(t[i].kind)
    ensures CmdAt(t, i, at + 1) == if i == Owner(t, at) then Completed(CmdAt(t, i, at), t[at], at) else CmdAt(t, i, at)
  {
    assert BracketAt(t, Brackets(t), at) && BracketAt(t, Brackets(t), i);
    assert Joined(Brackets(t), |t|, at) && Joined(Brackets(t), |t|, i) && LinkedAt(t, at);
    if t[at].kind == Inner2 { assert LinkedAt(t, t[at].inner); }
  }

  /** The paren of a brace gets its two braces and its end, one after the other. */
  lemma ParenLater(t: seq<Op>, i: nat, at: nat)
    requires Linked(t) && Bracketing(t, Brackets(t)) && i < at < |t| && t[i].kind == IRep1
    ensures CmdAt(t, i, at + 1) == if i == Owner(t, at) then Completed(CmdAt(t, i, at), t[at], at) else CmdAt(t, i, at)
  {
    FourTokens(t, i);
    assert LinkedAt(t, at) && BracketAt(t, Brackets(t), at);
    if Braced(t[at].kind) {
      HeadOf(t, at);
      FourTokens(t, Head(t, at));
    }
  }

  /** The command that a token becomes. */
  lemma CmdNew(t: seq<Op>, at: nat)
    requires Linked(t) && Bracketing(t, Brackets(t)) && at < |t|
    ensures CmdAt(t, at, at + 1) ==
              if t[at].kind == Loop2 then Plain(Loop2).(jmp := Owner(t, at))
              else if Owner(t, at) >= 0 then Plain(Token(t[at].kind)).(start := Owner(t, at))
              else Plain(Token(t[at].kind))
  {
    assert LinkedAt(t, at) && BracketAt(t, Brackets(t), at);
    if t[at].kind == IRep1 || t[at].kind == Inner2 { assert LinkedAt(t, t[at].mate); }
    if t[at].kind == Inner2 { assert LinkedAt(t, t[at].inner); }
  }

  lemma CmdsNext(t: seq<Op>, at: nat)
    requires Linked(t) && Bracketing(t, Brackets(t)) && at < |t|
    ensures var h := Owner(t, at);
            && (h == -1 || 0 <= h < at)
            && Cmds(t, at + 1) == (if h >= 0 then Cmds(t, at)[h := Completed(CmdAt(t, h, at), t[at], at)] else Cmds(t, at))
                                  + [CmdAt(t, at, at + 1)]
  {
    OwnerOf(t, at);
    forall i: nat | i < at
      ensures CmdAt(t, i, at + 1) == if i == Owner(t, at) then Completed(CmdAt(t, i, at), t[at], at) else CmdAt(t, i, at)
    {
      CmdLater(t, i, at);
    }
  }

  /** Which of the pairings a token belongs to. */
  lemma TokenPairs(t: seq<Op>, at: nat)
    requires Linked(t) && Bracketing(t, Brackets(t)) && at < |t|
    ensures ParenPairs(t)[at] == if Token(t[at].kind) == Rep1 || Token(t[at].kind) == Rep2 then Brackets(t)[at] else -1
    ensures BracePairs(t)[at] == if t[at].kind == Inner1 || t[at].kind == Inner2 then Brackets(t)[at] else -1
    ensures Token(t[at].kind) == Rep1 || t[at].kind == Inner1 || t[at].kind == Loop1 <==> Brackets(t)[at] > at
    ensures Token(t[at].kind) == Rep2 || t[at].kind == Inner2 || t[at].kind == Loop2 <==> 0 <= Brackets(t)[at] < at
    ensures Token(t[at].kind) == Rep2 ==> Brackets(t)[at] == Owner(t, at)
    ensures 0 <= Brackets(t)[at] < |t| ==> (IsLoop(t[at].kind) <==> IsLoop(t[Brackets(t)[at]].kind))
  {
    assert LinkedAt(t, at) && BracketAt(t, Brackets(t), at);
  }

  lemma Pushed(st: seq<nat>, x: nat)
    ensures (st + [x])[..|st|] == st && (st + [x])[|st|] == x
  {
  }

  /** Opening a bracket or a block. */
  lemma OpenStacks(t: seq<Op>, at: nat)
    requires Linked(t) && Bracketing(t, Brackets(t)) && at < |t| && Brackets(t)[at] > at
    ensures var r, r' := ReadingAt(t, at), ReadingAt(t, at + 1);
            && r'.parens == (if Token(t[at].kind) == Rep1 then r.parens + [at] else r.parens)
            && r'.braces == (if t[at].kind == Inner1 then r.braces + [at] else r.braces)
            && r'.loops == (if t[at].kind == Loop1 then r.loops + [at] else [])
            && r'.loopses == (if t[at].kind == Loop1 then r.loopses else r.loopses + [r.loops])
  {
    TokenPairs(t, at);
    Pushed(Open(Brackets(t), at), at);
  }

  /** Ending one. */
  lemma CloseStacks(t: seq<Op>, at: nat)
    requires Linked(t) && Bracketing(t, Brackets(t)) && at < |t| && 0 <= Brackets(t)[at] < at
    ensures var r, r', o := ReadingAt(t, at), ReadingAt(t, at + 1), Brackets(t)[at];
            && (Token(t[at].kind) == Rep2 ==> r.parens != [] && r.parens[|r.parens| - 1] == o)
            && r'.parens == (if Token(t[at].kind) == Rep2 then r.parens[..|r.parens| - 1] else r.parens)
            && (t[at].kind == Inner2 ==> r.braces != [] && r.braces[|r.braces| - 1] == o)
            && r'.braces == (if t[at].kind == Inner2 then r.braces[..|r.braces| - 1] else r.braces)
            && (t[at].kind == Loop2 ==> r.loops == r'.loops + [o] && r'.loopses == r.loopses)
            && (t[at].kind != Loop2 ==> r.loops == [] && r.loopses == r'.loopses + [r'.loops])
  {
    TokenPairs(t, at);
    PairsPaired(t);
    OpenTop(Brackets(t), at);
    if Token(t[at].kind) == Rep2 { OpenTop(ParenPairs(t), at); }
    if t[at].kind == Inner2 { OpenTop(BracePairs(t), at); }
  }

  /** A token that neither opens nor ends anything. */
  lemma SameStacks(t: seq<Op>, at: nat)
    requires Linked(t) && Bracketing(t, Brackets(t)) && at < |t| && Brackets(t)[at] == -1
    ensures var r, r' := ReadingAt(t, at), ReadingAt(t, at + 1);
            r'.parens == r.parens && r'.braces == r.braces && r'.loops == r.loops && r'.loopses == r.loopses
  {
    TokenPairs(t, at);
  }

  /** The brace of this paren is not known before `at`. */
  predicate Braceless(t: seq<Op>, at: nat, y: nat)
  {
    y < |t| && CmdAt(t, y, at).cbstart == -1
  }

  /** The paren of a `{` is open and braceless, and the open parens further in are not. */
  lemma ParenOfBrace(t: seq<Op>, at: nat, y: nat)
    requires Linked(t) && at < |t| && t[at].kind == Inner1 && IsOpen(ParenPairs(t), at, y)
    ensures 0 <= t[at].mate < at && IsOpen(ParenPairs(t), at, t[at].mate) && Braceless(t, at, t[at].mate)
    ensures y > t[at].mate ==> !Braceless(t, at, y)
  {
    assert LinkedAt(t, at) && LinkedAt(t, t[at].mate) && LinkedAt(t, y);
    assert LinkedAt(t, t[at].inner);
    if y > t[at].mate { NearestParen(t, at, y); }
  }

  lemma ParenIsOpen(t: seq<Op>, at: nat)
    requires Linked(t) && at < |t| && t[at].kind == Inner1
    ensures 0 <= t[at].mate < at && IsOpen(ParenPairs(t), at, t[at].mate)
  {
    assert LinkedAt(t, at) && LinkedAt(t, t[at].mate) && LinkedAt(t, t[at].inner);
  }

  /** The paren of a `{` is the innermost open one whose brace is not known yet. */
  lemma BraceFound(t: seq<Op>, at: nat, parens: seq<nat>, pi: int)
    requires Linked(t) && at < |t| && t[at].kind == Inner1 && OpenExactly(ParenPairs(t), at, parens)
    requires -1 <= pi < |parens| && (pi >= 0 ==> Braceless(t, at, parens[pi]))
    requires forall k {:trigger parens[k]} :: pi < k < |parens| ==> !Braceless(t, at, parens[k])
    ensures pi >= 0 && parens[pi] == t[at].mate
  {
    ParenIsOpen(t, at);
    var q: nat := t[at].mate;
    ParenOfBrace(t, at, q);
    assert q in parens;
    var j :| 0 <= j < |parens| && parens[j] == q;
    if j < pi {
      assert Ordered(parens, j, pi) && parens[pi] in parens;
      ParenOfBrace(t, at, parens[pi]);
    }
  }

  // What each token does, as a function.

  predicate AllBelow(xs: seq<nat>, n: nat)
  {
    forall k {:trigger xs[k]} :: 0 <= k < |xs| ==> xs[k] < n
  }

  /** The stacks hold positions of commands. */
  predicate Safe(r: Reading)
  {
    && AllBelow(r.parens, |r.ret|) && AllBelow(r.loops, |r.ret|)
    && (forall k {:trigger r.loopses[k]} :: 0 <= k < |r.loopses| ==> AllBelow(r.loopses[k], |r.ret|))
    && (forall k {:trigger r.braces[k]} :: 0 <= k < |r.braces| ==> r.braces[k] < |r.ret| && r.ret[r.braces[k]].kind == Inner1)
    && (forall i {:trigger r.ret[i]} :: 0 <= i < |r.ret| && r.ret[i].kind == Inner1 ==> 0 <= r.ret[i].start < |r.ret|)
  }

  function Add(r: Reading, c: Cmd): (r': Reading)
    ensures Safe(r) && (c.kind == Inner1 ==> 0 <= c.start <= |r.ret|) ==> Safe(r')
  {
    r.(ret := r.ret + [c])
  }

  function Unmatched(r: Reading): Reading
  {
    Add(r.(fine := false), Plain(Wait))
  }

  function Inward(r: Reading): (r': Reading)
    ensures Safe(r) ==> Safe(r')
  {
    r.(loopses := r.loopses + [r.loops], loops := [])
  }

  function Outward(r: Reading): (r': Reading)
    ensures Safe(r) ==> Safe(r')
  {
    var n := |r.loopses|;
    if n == 0 then r.(loops := [], fine := r.fine && r.loops == [])
    else r.(loops := r.loopses[n - 1], loopses := r.loopses[..n - 1], fine := r.fine && r.loops == [])
  }

  /** The innermost of these parens without a brace, or -1. */
  function Free(ret: seq<Cmd>, parens: seq<nat>): (pi: int)
    requires AllBelow(parens, |ret|)
    ensures -1 <= pi < |parens| && (pi >= 0 ==> ret[parens[pi]].cbstart == -1)
    ensures forall k {:trigger parens[k]} :: pi < k < |parens| ==> ret[parens[k]].cbstart != -1
  {
    var n := |parens| - 1;
    if parens == [] || ret[parens[n]].cbstart == -1 then n
    else
      var pi := Free(ret, parens[..n]);
      assert forall k {:trigger parens[k]} :: 0 <= k < n ==> parens[k] == parens[..n][k];
      pi
  }

  function BeginLoop(r: Reading): (r': Reading)
    requires Safe(r)
    ensures Safe(r') && |r'.ret| == |r.ret| + 1
  {
    Add(r.(loops := r.loops + [|r.ret|]), Plain(Loop1))
  }

  function BeginParen(r: Reading): (r': Reading)
    requires Safe(r)
    ensures Safe(r') && |r'.ret| == |r.ret| + 1
  {
    Add(r.(parens := r.parens + [|r.ret|]), Plain(Rep1))
  }

  function EndLoop(r: Reading): (r': Reading)
    requires Safe(r)
    ensures Safe(r') && |r'.ret| == |r.ret| + 1
  {
    if r.loops == [] then Unmatched(r)
    else
      var n := |r.loops| - 1;
      var j := r.loops[n];
      Add(r.(loops := r.loops[..n], ret := r.ret[j := r.ret[j].(jmp := |r.ret|)]), Plain(Loop2).(jmp := j))
  }

  function EndParen(r: Reading, count: int): (r': Reading)
    requires Safe(r)
    ensures Safe(r') && |r'.ret| == |r.ret| + 1
  {
    if r.parens == [] then Unmatched(r)
    else
      var n := |r.parens| - 1;
      var h := r.parens[n];
      Add(r.(parens := r.parens[..n], ret := r.ret[h := r.ret[h].(end := |r.ret|, ct := count)]), Plain(Rep2).(start := h))
  }

  function BeginBrace(r: Reading): (r': Reading)
    requires Safe(r)
    ensures Safe(r') && |r'.ret| == |r.ret| + 1
  {
    var pi := Free(r.ret, r.parens);
    if pi < 0 then Unmatched(r)
    else
      var h := r.parens[pi];
      Add(r.(braces := r.braces + [|r.ret|], ret := r.ret[h := r.ret[h].(cbstart := |r.ret|)]), Plain(Inner1).(start := h))
  }

  function EndBrace(r: Reading): (r': Reading)
    requires Safe(r)
    ensures Safe(r') && |r'.ret| == |r.ret| + 1
  {
    if r.braces == [] then Unmatched(r)
    else
      var n := |r.braces| - 1;
      var h := r.ret[r.braces[n]].start;
      Add(r.(braces := r.braces[..n], ret := r.ret[h := r.ret[h].(cbend := |r.ret|)]), Plain(Inner2).(start := h))
  }

  /** One token more. */
  function Next(r: Reading, o: Op): (r': Reading)
    requires Safe(r)
    ensures Safe(r') && |r'.ret| == |r.ret| + 1
  {
    match Token(o.kind)
    case Loop1 => BeginLoop(r)
    case Loop2 => EndLoop(r)
    case Rep1 => BeginParen(Inward(r))
    case Rep2 => EndParen(Outward(r), o.count)
    case Inner1 => BeginBrace(Inward(r))
    case Inner2 => EndBrace(Outward(r))
    case k => Add(r, Plain(k))
  }

  /** The first `n` tokens. */
  function ReadAll(raw: seq<Op>, n: nat): (r: Reading)
    requires n <= |raw|
    ensures Safe(r) && |r.ret| == n
  {
    if n == 0 then Reading([], [], [], [], [], true) else Next(ReadAll(raw, n - 1), raw[n - 1])
  }

  /** `t` is the list behind the tokens. */
  ghost predicate Nested(t: seq<Op>)
  {
    Linked(t) && Bracketing(t, Brackets(t))
  }

  /** The parser keeps to the list. */
  lemma NextPlain(t: seq<Op>, at: nat)
    requires Nested(t) && at < |t| && Costed(t[at].kind) && !IsLoop(t[at].kind)
    ensures Add(ReadingAt(t, at), Plain(t[at].kind)) == ReadingAt(t, at + 1)
  {
    assert LinkedAt(t, at) && BracketAt(t, Brackets(t), at);
    CmdsNext(t, at);
    CmdNew(t, at);
    SameStacks(t, at);
  }

  lemma NextLoop(t: seq<Op>, at: nat)
    requires Nested(t) && at < |t| && t[at].kind == Loop1 && Safe(ReadingAt(t, at))
    ensures BeginLoop(ReadingAt(t, at)) == ReadingAt(t, at + 1)
  {
    TokenPairs(t, at);
    CmdsNext(t, at);
    CmdNew(t, at);
    OpenStacks(t, at);
  }

  lemma NextParen(t: seq<Op>, at: nat, r: Reading)
    requires Nested(t) && at < |t| && Token(t[at].kind) == Rep1 && r == Inward(ReadingAt(t, at)) && Safe(r)
    ensures BeginParen(r) == ReadingAt(t, at + 1)
  {
    TokenPairs(t, at);
    CmdsNext(t, at);
    CmdNew(t, at);
    OpenStacks(t, at);
  }

  lemma NextLoopEnd(t: seq<Op>, at: nat)
    requires Nested(t) && at < |t| && t[at].kind == Loop2 && Safe(ReadingAt(t, at))
    ensures EndLoop(ReadingAt(t, at)) == ReadingAt(t, at + 1)
  {
    TokenPairs(t, at);
    CmdsNext(t, at);
    CmdNew(t, at);
    CloseStacks(t, at);
    assert BracketAt(t, Brackets(t), at);
    var r, r' := ReadingAt(t, at), ReadingAt(t, at + 1);
    assert r.loops[..|r.loops| - 1] == r'.loops;
  }

  /** The loops of the block around one that ends here. */
  lemma OutwardIs(t: seq<Op>, at: nat)
    requires Nested(t) && at < |t| && (Token(t[at].kind) == Rep2 || t[at].kind == Inner2)
    ensures var r, r', out := ReadingAt(t, at), ReadingAt(t, at + 1), Outward(ReadingAt(t, at));
            && out.loops == r'.loops && out.loopses == r'.loopses && out.fine
            && out.parens == r.parens && out.braces == r.braces && out.ret == r.ret
  {
    TokenPairs(t, at);
    CloseStacks(t, at);
    var r, r' := ReadingAt(t, at), ReadingAt(t, at + 1);
    assert r.loopses[..|r.loopses| - 1] == r'.loopses;
  }

  lemma NextParenEnd(t: seq<Op>, at: nat, out: Reading)
    requires Nested(t) && at < |t| && Token(t[at].kind) == Rep2 && out == Outward(ReadingAt(t, at)) && Safe(out)
    ensures EndParen(out, t[at].count) == ReadingAt(t, at + 1)
  {
    OutwardIs(t, at);
    TokenPairs(t, at);
    CmdsNext(t, at);
    CmdNew(t, at);
    CloseStacks(t, at);
  }

  lemma NextBrace(t: seq<Op>, at: nat, r: Reading)
    requires Nested(t) && at < |t| && t[at].kind == Inner1 && r == Inward(ReadingAt(t, at)) && Safe(r)
    ensures BeginBrace(r) == ReadingAt(t, at + 1)
  {
    TokenPairs(t, at);
    CmdsNext(t, at);
    CmdNew(t, at);
    OpenStacks(t, at);
    BraceOwner(t, at, r.parens, r.ret, Free(r.ret, r.parens));
  }

  lemma NextBraceEnd(t: seq<Op>, at: nat, out: Reading)
    requires Nested(t) && at < |t| && t[at].kind == Inner2 && out == Outward(ReadingAt(t, at)) && Safe(out)
    ensures EndBrace(out) == ReadingAt(t, at + 1)
  {
    OutwardIs(t, at);
    TokenPairs(t, at);
    CmdsNext(t, at);
    CmdNew(t, at);
    CloseStacks(t, at);
    BraceStart(t, at);
  }

  lemma BraceOwner(t: seq<Op>, at: nat, parens: seq<nat>, ret: seq<Cmd>, pi: int)
    requires Nested(t) && at < |t| && t[at].kind == Inner1 && parens == Open(ParenPairs(t), at) && ret == Cmds(t, at)
    requires AllBelow(parens, |ret|) && -1 <= pi < |parens| && (pi >= 0 ==> ret[parens[pi]].cbstart == -1)
    requires forall k {:trigger parens[k]} :: pi < k < |parens| ==> ret[parens[k]].cbstart != -1
    ensures pi >= 0 && parens[pi] == Owner(t, at)
  {
    PairsPaired(t);
    OpenIs(ParenPairs(t), at);
    BraceFound(t, at, parens, pi);
  }

  /** The command of the brace that ends here tells its paren. */
  lemma BraceStart(t: seq<Op>, at: nat)
    requires Nested(t) && at < |t| && t[at].kind == Inner2
    ensures 0 <= Brackets(t)[at] < at && CmdAt(t, Brackets(t)[at], at).start == Owner(t, at)
  {
    assert LinkedAt(t, at);
    assert LinkedAt(t, t[at].inner);
  }

  /** One token keeps the parser at the list. */
  lemma NextReading(t: seq<Op>, at: nat, o: Op, r: Reading)
    requires Nested(t) && at < |t| && Token(o.kind) == Token(t[at].kind) && (Token(o.kind) == Rep2 ==> o.count == t[at].count)
    requires r == ReadingAt(t, at) && Safe(r)
    ensures Next(r, o) == ReadingAt(t, at + 1)
  {
    match Token(o.kind)
    case Loop1 => NextLoop(t, at);
    case Loop2 => NextLoopEnd(t, at);
    case Rep1 => NextParen(t, at, Inward(r));
    case Rep2 => NextParenEnd(t, at, Outward(r));
    case Inner1 => NextBrace(t, at, Inward(r));
    case Inner2 => NextBraceEnd(t, at, Outward(r));
    case _ => NextPlain(t, at);
  }

  // The parser.

  /** The command has everything that it needs. */
  predicate Matched(ret: seq<Cmd>, i: nat)
  {
    i < |ret| ==>
      var c := ret[i];
      && (c.kind == Loop1 ==> c.jmp != -1)
      && (c.kind == Rep1 ==> c.end != -1 && c.ct != -1)
      && (c.kind == Inner1 && 0 <= c.start < |ret| ==> ret[c.start].cbend != -1)
  }

  predicate AllMatched(ret: seq<Cmd>, n: nat)
  {
    forall i: nat {:trigger Matched(ret, i)} :: i < n ==> Matched(ret, i)
  }

  class Parser {
    var ret: seq<Cmd>
    var parens: seq<nat>
    var braces: seq<nat>
    var loops: seq<nat>
    var loopses: seq<seq<nat>>
    /** Nothing unmatched has been found. */
    var fine: bool

    constructor ()
      ensures Now() == Reading([], [], [], [], [], true)
    {
      ret, parens, braces, loops, loopses, fine := [], [], [], [], [], true;
    }

    function Now(): Reading
      reads this
    {
      Reading(ret, parens, braces, loops, loopses, fine)
    }

    method PushLoops()
      modifies this`loops, this`loopses
      ensures Now() == Inward(old(Now()))
    {
      loopses := loopses + [loops];
      loops := [];
    }

    method PopLoops()
      modifies this`loops, this`loopses, this`fine
      ensures Now() == Outward(old(Now()))
    {
      if |loops| > 0 { fine := false; }
      if |loopses| > 0 {
        loops := loopses[|loopses| - 1];
        loopses := loopses[..|loopses| - 1];
      } else {
        loops := [];
      }
    }

    method LoopBegin()
      requires Safe(Now())
      modifies this
      ensures Now() == BeginLoop(old(Now()))
    {
      loops := loops + [|ret|];
      ret := ret + [Plain(Loop1)];
    }

    method ParenBegin()
      requires Safe(Now())
      modifies this
      ensures Now() == BeginParen(Inward(old(Now())))
    {
      PushLoops();
      parens := parens + [|ret|];
      ret := ret + [Plain(Rep1)];
    }

    method LoopEnd()
      requires Safe(Now())
      modifies this
      ensures Now() == EndLoop(old(Now()))
    {
      if |loops| == 0 {
        fine := false;
        ret := ret + [Plain(Wait)];
      } else {
        var jmp := loops[|loops| - 1];
        loops := loops[..|loops| - 1];
        ret := ret[jmp := ret[jmp].(jmp := |ret|)] + [Plain(Loop2).(jmp := jmp)];
      }
    }

    method ParenEnd(count: int)
      requires Safe(Now())
      modifies this
      ensures Now() == EndParen(Outward(old(Now())), count)
    {
      PopLoops();
      if |parens| == 0 {
        fine := false;
        ret := ret + [Plain(Wait)];
      } else {
        var start := parens[|parens| - 1];
        parens := parens[..|parens| - 1];
        ret := ret[start := ret[start].(end := |ret|, ct := count)] + [Plain(Rep2).(start := start)];
      }
    }

    /** Looks for a paren without a brace, from the innermost one outwards. */
    method FindParen() returns (pi: int)
      requires Safe(Now())
      ensures pi == Free(ret, parens)
    {
      pi := |parens| - 1;
      assert parens[..pi + 1] == parens;
      while pi >= 0 && ret[parens[pi]].cbstart != -1
        invariant -1 <= pi < |parens| && Free(ret, parens[..pi + 1]) == Free(ret, parens)
      {
        assert parens[..pi + 1][..pi] == parens[..pi];
        pi := pi - 1;
      }
    }

    method Brace()
      requires Safe(Now())
      modifies this
      ensures Now() == BeginBrace(Inward(old(Now())))
    {
      PushLoops();
      var pi := FindParen();
      if pi < 0 {
        fine := false;
        ret := ret + [Plain(Wait)];
      } else {
        var start := parens[pi];
        braces := braces + [|ret|];
        ret := ret[start := ret[start].(cbstart := |ret|)] + [Plain(Inner1).(start := start)];
      }
    }

    method BraceEnd()
      requires Safe(Now())
      modifies this
      ensures Now() == EndBrace(Outward(old(Now())))
    {
      PopLoops();
      if |braces| == 0 {
        fine := false;
        ret := ret + [Plain(Wait)];
      } else {
        var start := ret[braces[|braces| - 1]].start;
        braces := braces[..|braces| - 1];
        ret := ret[start := ret[start].(cbend := |ret|)] + [Plain(Inner2).(start := start)];
      }
    }

    /** Reads one token. */
    method Command(o: Op)
      requires Safe(Now())
      modifies this
      ensures Now() == Next(old(Now()), o)
    {
      var k := Token(o.kind);
      if k == Loop1 {
        LoopBegin();
      } else if k == Loop2 {
        LoopEnd();
      } else if k == Rep1 {
        ParenBegin();
      } else if k == Rep2 {
        ParenEnd(o.count);
      } else if k == Inner1 {
        Brace();
      } else if k == Inner2 {
        BraceEnd();
      } else {
        ret := ret + [Plain(k)];
      }
    }

    /** Verifies that everything is matched. */
    method Verify()
      requires Safe(Now())
      modifies this`fine
      ensures fine == (old(fine) && AllMatched(ret, |ret|))
    {
      for i := 0 to |ret|
        invariant fine == (old(fine) && AllMatched(ret, i))
      {
        var c := ret[i];
        assert Matched(ret, i) || !Matched(ret, i);
        if (c.kind == Loop1 && c.jmp == -1) || (c.kind == Rep1 && (c.end == -1 || c.ct == -1))
           || (c.kind == Inner1 && ret[c.start].cbend == -1) {
          fine := false;
        }
      }
    }
  }

  /** `t` links the tokens `raw` and nests their brackets. */
  ghost predicate Goal(raw: seq<Op>, t: seq<Op>)
  {
    Nested(t) && EndsDone(t) && SameTexts(raw, t)
  }

  /** The parser follows every such list. */
  ghost predicate Follows(raw: seq<Op>, r: Reading, at: nat)
    requires at <= |raw|
  {
    Safe(r) && |r.ret| == at && forall t: seq<Op> {:trigger Goal(raw, t)} :: Goal(raw, t) ==> r == ReadingAt(t, at)
  }

  lemma NextGoal(raw: seq<Op>, t: seq<Op>, at: nat, r: Reading)
    requires Raw(raw) && Goal(raw, t) && at < |raw| && r == ReadingAt(t, at) && Safe(r)
    ensures Next(r, raw[at]) == ReadingAt(t, at + 1)
  {
    assert SameText(raw, t, at) && RawAt(raw, at);
    NextReading(t, at, raw[at], r);
  }

  lemma NextFollows(raw: seq<Op>, r: Reading, at: nat, r': Reading)
    requires Raw(raw) && at < |raw| && Follows(raw, r, at) && r' == Next(r, raw[at])
    ensures Follows(raw, r', at + 1)
  {
    forall t: seq<Op> {:trigger Goal(raw, t)} | Goal(raw, t)
      ensures r' == ReadingAt(t, at + 1)
    {
      NextGoal(raw, t, at, r);
    }
  }

  lemma NothingRead(raw: seq<Op>)
    ensures Follows(raw, Reading([], [], [], [], [], true), 0)
  {
  }

  /** All links are known in the end. */
  ghost predicate Reads(raw: seq<Op>, cmds: seq<Cmd>, fine: bool)
  {
    forall t: seq<Op> {:trigger Goal(raw, t)} :: Goal(raw, t) ==> fine && cmds == Cmds(t, |t| - 1)
  }

  lemma AllRead(raw: seq<Op>, r: Reading)
    requires |raw| > 0 && Follows(raw, r, |raw| - 1)
    ensures Reads(raw, r.ret, r.fine && AllMatched(r.ret, |r.ret|))
  {
    forall t: seq<Op> {:trigger Goal(raw, t)} | Goal(raw, t)
      ensures r.fine && AllMatched(r.ret, |r.ret|) && r.ret == Cmds(t, |t| - 1)
    {
      CmdsMatched(t);
    }
  }

  /** Parses the tokens. If they can be linked and their brackets nested, nothing unmatched is found, and
      the commands hold the links. */
  method Parse(raw: seq<Op>) returns (cmds: seq<Cmd>, fine: bool)
    requires Raw(raw)
    ensures Reads(raw, cmds, fine)
    ensures var r := ReadAll(raw, |raw| - 1); cmds == r.ret && (fine <==> r.fine && AllMatched(cmds, |raw| - 1))
  {
    var p := new Parser();
    NothingRead(raw);
    for at := 0 to |raw| - 1
      invariant Follows(raw, p.Now(), at) && p.Now() == ReadAll(raw, at)
    {
      ghost var r := p.Now();
      p.Command(raw[at]);
      NextFollows(raw, r, at, p.Now());
    }
    AllRead(raw, p.Now());
    p.Verify();
    cmds, fine := p.ret, p.fine;
  }

  /** The links of a list lead to tokens before its `Done`. */
  lemma LinksInside(t: seq<Op>, i: nat)
    requires Nested(t) && EndsDone(t) && i < |t| - 1
    ensures IsLoop(t[i].kind) ==> 0 <= t[i].mate < |t| - 1
    ensures !Costed(t[i].kind) ==> 0 <= t[i].mate < |t| - 1 && t[i].count >= 0
    ensures Braced(t[i].kind) ==> 0 <= t[i].inner < |t| - 1 && 0 <= t[t[i].mate].inner < |t| - 1 && 0 <= t[t[i].inner].mate < |t| - 1
  {
    assert LinkedAt(t, i) && BracketAt(t, Brackets(t), i);
    if !Costed(t[i].kind) {
      CountsFollow(t, i);
      assert LinkedAt(t, t[i].mate) && LinkedAt(t, Closing(t, i));
      if Braced(t[i].kind) { assert LinkedAt(t, t[i].inner); }
    }
  }

  /** When all tokens have been read, every link is known. */
  lemma CmdsMatched(t: seq<Op>)
    requires Nested(t) && EndsDone(t)
    ensures AllMatched(Cmds(t, |t| - 1), |t| - 1)
  {
    var n: nat := |t| - 1;
    forall i: nat {:trigger Matched(Cmds(t, n), i)} | i < n
      ensures Matched(Cmds(t, n), i)
    {
      LinksInside(t, i);
      assert LinkedAt(t, i);
    }
  }

  /** The instruction that a command stands for, with its links. */
  function AsOp(cmds: seq<Cmd>, i: nat): Op
    requires i < |cmds|
  {
    var c := cmds[i];
    var h := if c.kind == Rep1 then i else c.start;
    if c.kind == Loop1 || c.kind == Loop2 then Op(c.kind, c.jmp, -1, -1)
    else if c.kind == Rep1 then
      if c.cbstart == -1 then Op(Rep1, c.end, -1, c.ct) else Op(IRep1, c.cbstart, c.end, c.ct)
    else if 0 <= h < |cmds| && c.kind == Rep2 then
      if cmds[h].cbstart == -1 then Op(Rep2, h, -1, cmds[h].ct) else Op(IRep2, cmds[h].cbend, h, cmds[h].ct)
    else if 0 <= h < |cmds| && c.kind == Inner1 then Op(Inner1, h, cmds[h].cbend, cmds[h].ct)
    else if 0 <= h < |cmds| && c.kind == Inner2 then Op(Inner2, cmds[h].end, cmds[h].cbstart, cmds[h].ct)
    else Op(c.kind, -1, -1, -1)
  }

  /** The commands hold exactly the links of the list. */
  lemma CmdsHold(t: seq<Op>, i: nat)
    requires Nested(t) && EndsDone(t) && i < |t| - 1
    ensures !Costed(t[i].kind) ==> AsOp(Cmds(t, |t| - 1), i) == t[i]
    ensures Costed(t[i].kind) ==> AsOp(Cmds(t, |t| - 1), i).kind == t[i].kind
    ensures IsLoop(t[i].kind) ==> AsOp(Cmds(t, |t| - 1), i).mate == t[i].mate
  {
    LinksInside(t, i);
    if !Costed(t[i].kind) { HoldsLinks(t, i, |t| - 1); }
  }

  lemma HoldsLinks(t: seq<Op>, i: nat, n: nat)
    requires Linked(t) && i < n <= |t| && !Costed(t[i].kind) && 0 <= t[i].mate < n
    requires Braced(t[i].kind) ==> 0 <= t[i].inner < n && 0 <= t[t[i].mate].inner < n && 0 <= t[t[i].inner].mate < n
    ensures AsOp(Cmds(t, n), i) == t[i]
  {
    assert LinkedAt(t, i) && LinkedAt(t, t[i].mate);
    if Braced(t[i].kind) {
      HeadOf(t, i);
      FourTokens(t, Head(t, i));
    }
  }
}
