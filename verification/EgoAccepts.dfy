/** Which token lists the reference interpreter accepts. */
module EgoAccepts {
  import opened Nest
  import opened Ops
  import opened Links
  import opened Levels
  import opened Faults
  import opened EgoParser

  // What the interpreter looks at: parens among themselves, braces among themselves, the parens that have
  // no brace yet, and brackets between all of them.

  /** Which of the open parens have no brace yet, outermost first. */
  function Bare(raw: seq<Op>, at: nat): seq<bool>
    requires at <= |raw|
  {
    if at == 0 then []
    else
      var bs, k := Bare(raw, at - 1), raw[at - 1].kind;
      if k == Rep1 then bs + [true]
      else if k == Rep2 && bs != [] then bs[..|bs| - 1]
      else if k == Inner1 then Taken(bs)
      else bs
  }

  /** The innermost one gets a brace. */
  function Taken(bs: seq<bool>): (r: seq<bool>)
    ensures |r| == |bs|
  {
    if bs == [] then []
    else
      var n := |bs| - 1;
      if bs[n] then bs[..n] + [false] else Taken(bs[..n]) + [false]
  }

  function OpenBraces(raw: seq<Op>, at: nat): int
    requires at <= |raw|
  {
    Unclosed(raw, Inner1, Inner2, at)
  }

  /** The interpreter cannot match the token at `at`. */
  predicate Unmatched(raw: seq<Op>, at: nat)
  {
    at < |raw| &&
    var k, innermost := raw[at].kind, LoopScanned(raw, at);
    || (k == Loop2 && !innermost.Frame?)
    || (k == Rep2 && (innermost.Frame? || OpenParens(raw, at) == 0))
    || (k == Inner1 && true !in Bare(raw, at))
    || (k == Inner2 && (innermost.Frame? || OpenBraces(raw, at) == 0))
  }

  ghost predicate MatchedBefore(raw: seq<Op>, n: nat)
  {
    forall at: nat {:trigger Unmatched(raw, at)} :: at < n ==> !Unmatched(raw, at)
  }

  /** Every token is matched, and nothing is left open. Parens and braces may cross. */
  ghost predicate Sound(raw: seq<Op>, n: nat)
    requires n <= |raw|
  {
    MatchedBefore(raw, n) && OpenParens(raw, n) == 0 && OpenBraces(raw, n) == 0 && OpenBrackets(raw, n) == 0
  }

  // The stacks.

  /** The openers of one kind that are open before `at`, outermost first. */
  function Opened(raw: seq<Op>, open: Kind, close: Kind, at: nat): seq<nat>
    requires at <= |raw|
  {
    if at == 0 then []
    else
      var st, k := Opened(raw, open, close, at - 1), raw[at - 1].kind;
      if k == open then st + [at - 1]
      else if k == close && st != [] then st[..|st| - 1]
      else st
  }

  ghost predicate InOrder(raw: seq<Op>, open: Kind, st: seq<nat>, at: nat)
  {
    at <= |raw| && Increasing(st) && forall x :: x in st ==> x < at && raw[x].kind == open
  }

  lemma PushedInOrder(raw: seq<Op>, open: Kind, st: seq<nat>, at: nat)
    requires InOrder(raw, open, st, at) && at < |raw| && raw[at].kind == open
    ensures InOrder(raw, open, st + [at], at + 1)
  {
    AppendLargest(st, at);
  }

  lemma PoppedInOrder(raw: seq<Op>, open: Kind, st: seq<nat>, at: nat, rest: seq<nat>, x: nat)
    requires InOrder(raw, open, st, at) && st == rest + [x]
    ensures InOrder(raw, open, rest, at) && forall y :: y in rest ==> y < x
  {
    LastIsLargest(rest, x);
    forall y | y in rest
      ensures y in st
    {
    }
  }

  lemma {:induction false} OpenedOrder(raw: seq<Op>, open: Kind, close: Kind, at: nat)
    requires at <= |raw|
    ensures InOrder(raw, open, Opened(raw, open, close, at), at)
    decreases at
  {
    if at > 0 {
      OpenedOrder(raw, open, close, at - 1);
      var st, k := Opened(raw, open, close, at - 1), raw[at - 1].kind;
      if k == open {
        PushedInOrder(raw, open, st, at - 1);
      } else if k == close && st != [] {
        var m := |st| - 1;
        PoppedInOrder(raw, open, st, at - 1, st[..m], st[m]);
      }
    }
  }

  /** The open brackets of the current level, and those of the levels around it. */
  function Top(c: Levels.Open): seq<nat>
  {
    if c.Frame? then Top(c.outer) + [c.at] else []
  }

  function Under(c: Levels.Open): seq<seq<nat>>
  {
    match c
    case Nothing => []
    case Frame(_, outer) => Under(outer)
    case Counted(_, outer) => Under(outer) + [Top(outer)]
  }

  lemma {:induction false} FramesOrder(raw: seq<Op>, at: nat)
    requires at <= |raw|
    ensures FramesBelow(raw, LoopScanned(raw, at), at)
    decreases at
  {
    if at > 0 {
      FramesOrder(raw, at - 1);
      BelowLater(raw, LoopScanned(raw, at - 1), at - 1, at);
    }
  }

  ghost predicate FramesBelow(raw: seq<Op>, c: Levels.Open, n: nat)
  {
    && (c != Nothing ==> c.at < n && FramesBelow(raw, c.outer, c.at))
    && (c.Frame? ==> c.at < |raw| && raw[c.at].kind == Loop1)
    && forall x :: x in Frames(c) ==> x < n && x < |raw| && raw[x].kind == Loop1
  }

  lemma BelowLater(raw: seq<Op>, c: Levels.Open, m: nat, n: nat)
    requires FramesBelow(raw, c, m) && m <= n
    ensures FramesBelow(raw, c, n)
  {
  }

  // What the commands know.

  ghost predicate KnownAt(r: Reading, frames: seq<nat>, i: nat)
  {
    i < |r.ret| ==>
      var c := r.ret[i];
      && (c.kind == Loop1 ==> (c.jmp == -1 <==> i in frames))
      && (c.kind == Rep1 ==> (c.end == -1 <==> i in r.parens) && (c.end != -1 ==> c.ct >= 0) && (c.cbstart == -1 ==> c.cbend == -1))
      && (c.kind == Inner1 ==>
            && 0 <= c.start < |r.ret| && r.ret[c.start].kind == Rep1 && r.ret[c.start].cbstart == i
            && (r.ret[c.start].cbend == -1 <==> i in r.braces))
  }

  ghost predicate AllKnown(r: Reading, frames: seq<nat>)
  {
    forall i: nat {:trigger KnownAt(r, frames, i)} :: KnownAt(r, frames, i)
  }

  /** Whether an open paren has a brace. */
  ghost predicate BareAt(r: Reading, bs: seq<bool>, k: nat)
  {
    k < |bs| && k < |r.parens| && r.parens[k] < |r.ret| ==> (bs[k] <==> r.ret[r.parens[k]].cbstart == -1)
  }

  ghost predicate BareIs(r: Reading, bs: seq<bool>)
  {
    |bs| == |r.parens| && forall k: nat {:trigger BareAt(r, bs, k)} :: BareAt(r, bs, k)
  }

  ghost predicate SameKinds(raw: seq<Op>, ret: seq<Cmd>)
  {
    |ret| <= |raw| && forall i {:trigger ret[i]} :: 0 <= i < |ret| ==> ret[i].kind == raw[i].kind
  }

  /** The stacks, as long as everything could be matched. */
  ghost predicate StacksAre(raw: seq<Op>, n: nat, r: Reading, c: Levels.Open)
  {
    && n <= |raw| && c == LoopScanned(raw, n)
    && r.parens == Opened(raw, Rep1, Rep2, n) && |r.parens| == OpenParens(raw, n)
    && r.braces == Opened(raw, Inner1, Inner2, n) && |r.braces| == OpenBraces(raw, n)
    && r.loops == Top(c) && r.loopses == Under(c)
    && |Frames(c)| == OpenBrackets(raw, n) && |r.loopses| == |r.parens| + |r.braces|
  }

  /** The commands, as long as everything could be matched. */
  ghost predicate CommandsAre(raw: seq<Op>, n: nat, r: Reading, frames: seq<nat>, bs: seq<bool>)
  {
    && n <= |raw| && Safe(r) && |r.ret| == n && SameKinds(raw, r.ret) && r.fine && BareIs(r, bs) && AllKnown(r, frames)
  }

  ghost predicate Tracked(raw: seq<Op>, n: nat, r: Reading)
  {
    && n <= |raw| && StacksAre(raw, n, r, LoopScanned(raw, n))
    && CommandsAre(raw, n, r, Frames(LoopScanned(raw, n)), Bare(raw, n))
  }

  lemma NothingTracked(raw: seq<Op>)
    ensures Tracked(raw, 0, Reading([], [], [], [], [], true))
  {
  }

  lemma OpenParensFacts(raw: seq<Op>, n: nat, r: Reading, c: Levels.Open)
    requires StacksAre(raw, n, r, c)
    ensures Increasing(r.parens) && Increasing(r.braces) && FramesBelow(raw, c, n)
    ensures forall x :: x in r.parens ==> x < n && raw[x].kind == Rep1
    ensures forall x :: x in r.braces ==> x < n && raw[x].kind == Inner1
  {
    OpenedOrder(raw, Rep1, Rep2, n);
    OpenedOrder(raw, Inner1, Inner2, n);
    FramesOrder(raw, n);
  }

  // One token more, command by command.

  /** A command that neither opens nor ends anything. */
  lemma AddPlain(raw: seq<Op>, n: nat, r: Reading, frames: seq<nat>, bs: seq<bool>, k: Kind)
    requires CommandsAre(raw, n, r, frames, bs) && n < |raw| && raw[n].kind == k && k != Loop1 && k != Rep1 && k != Inner1
    requires forall x :: x in r.parens ==> x < n
    ensures CommandsAre(raw, n + 1, Add(r, Plain(k)), frames, bs)
  {
    var r' := Add(r, Plain(k));
    forall i: nat {:trigger KnownAt(r', frames, i)}
      ensures KnownAt(r', frames, i)
    {
      assert KnownAt(r, frames, i);
    }
    forall j: nat {:trigger BareAt(r', bs, j)}
      ensures BareAt(r', bs, j)
    {
      assert BareAt(r, bs, j);
    }
  }

  lemma AddLoop(raw: seq<Op>, n: nat, r: Reading, frames: seq<nat>, bs: seq<bool>)
    requires CommandsAre(raw, n, r, frames, bs) && n < |raw| && raw[n].kind == Loop1
    requires forall x :: x in r.parens ==> x < n
    ensures CommandsAre(raw, n + 1, BeginLoop(r), frames + [n], bs)
  {
    var r', frames' := BeginLoop(r), frames + [n];
    forall i: nat {:trigger KnownAt(r', frames', i)}
      ensures KnownAt(r', frames', i)
    {
      assert KnownAt(r, frames, i);
    }
    forall j: nat {:trigger BareAt(r', bs, j)}
      ensures BareAt(r', bs, j)
    {
      assert BareAt(r, bs, j);
    }
  }

  lemma AddParen(raw: seq<Op>, n: nat, r: Reading, frames: seq<nat>, bs: seq<bool>)
    requires CommandsAre(raw, n, r, frames, bs) && n < |raw| && raw[n].kind == Rep1
    requires forall x :: x in r.parens ==> x < n
    ensures CommandsAre(raw, n + 1, BeginParen(r), frames, bs + [true])
  {
    var r', bs' := BeginParen(r), bs + [true];
    forall i: nat {:trigger KnownAt(r', frames, i)}
      ensures KnownAt(r', frames, i)
    {
      assert KnownAt(r, frames, i);
    }
    forall j: nat {:trigger BareAt(r', bs', j)}
      ensures BareAt(r', bs', j)
    {
      assert BareAt(r, bs, j);
    }
  }

  lemma AddLoopEnd(raw: seq<Op>, n: nat, r: Reading, frames: seq<nat>, x: nat, bs: seq<bool>)
    requires CommandsAre(raw, n, r, frames + [x], bs) && n < |raw| && raw[n].kind == Loop2
    requires r.loops != [] && r.loops[|r.loops| - 1] == x < n && raw[x].kind == Loop1 && x !in frames
    requires forall y :: y in r.parens ==> y < n && raw[y].kind == Rep1
    ensures CommandsAre(raw, n + 1, EndLoop(r), frames, bs)
  {
    var r', frames0 := EndLoop(r), frames + [x];
    forall i: nat {:trigger KnownAt(r', frames, i)}
      ensures KnownAt(r', frames, i)
    {
      assert KnownAt(r, frames0, i);
    }
    forall j: nat {:trigger BareAt(r', bs, j)}
      ensures BareAt(r', bs, j)
    {
      assert BareAt(r, bs, j);
    }
  }

  lemma AddParenEnd(raw: seq<Op>, n: nat, r: Reading, frames: seq<nat>, bs: seq<bool>, count: int)
    requires CommandsAre(raw, n, r, frames, bs) && n < |raw| && raw[n].kind == Rep2 && count >= 0
    requires r.parens != [] && Increasing(r.parens) && forall y :: y in r.parens ==> y < n && raw[y].kind == Rep1
    ensures CommandsAre(raw, n + 1, EndParen(r, count), frames, bs[..|bs| - 1])
  {
    var r', m := EndParen(r, count), |r.parens| - 1;
    var h := r.parens[m];
    assert r.parens == r.parens[..m] + [h];
    LastIsLargest(r.parens[..m], h);
    forall i: nat {:trigger KnownAt(r', frames, i)}
      ensures KnownAt(r', frames, i)
    {
      assert KnownAt(r, frames, i);
    }
    forall j: nat {:trigger BareAt(r', bs[..|bs| - 1], j)}
      ensures BareAt(r', bs[..|bs| - 1], j)
    {
      assert BareAt(r, bs, j);
    }
  }

  lemma {:induction false} TakenIs(bs: seq<bool>, pi: nat)
    requires pi < |bs| && bs[pi] && forall k :: pi < k < |bs| ==> !bs[k]
    ensures Taken(bs) == bs[pi := false]
    decreases |bs|
  {
    var n := |bs| - 1;
    assert bs == bs[..n] + [bs[n]];
    if pi < n { TakenIs(bs[..n], pi); }
  }

  /** The search finds the innermost open paren without a brace. */
  lemma FreeIs(r: Reading, bs: seq<bool>)
    requires Safe(r) && BareIs(r, bs)
    ensures var pi := Free(r.ret, r.parens);
            && (pi >= 0 <==> true in bs)
            && (pi >= 0 ==> bs[pi] && Taken(bs) == bs[pi := false])
  {
    var pi := Free(r.ret, r.parens);
    forall k | 0 <= k < |bs|
      ensures bs[k] <==> r.ret[r.parens[k]].cbstart == -1
    {
      assert BareAt(r, bs, k);
    }
    if pi >= 0 { TakenIs(bs, pi); }
  }

  lemma AddBrace(raw: seq<Op>, n: nat, r: Reading, frames: seq<nat>, bs: seq<bool>)
    requires CommandsAre(raw, n, r, frames, bs) && n < |raw| && raw[n].kind == Inner1 && true in bs
    requires Increasing(r.parens) && forall y :: y in r.parens ==> y < n && raw[y].kind == Rep1
    requires forall y :: y in r.braces ==> y < n
    ensures CommandsAre(raw, n + 1, BeginBrace(r), frames, Taken(bs))
  {
    FreeIs(r, bs);
    var r', pi: nat, bs' := BeginBrace(r), Free(r.ret, r.parens), Taken(bs);
    var h := r.parens[pi];
    assert KnownAt(r, frames, h);
    forall i: nat {:trigger KnownAt(r', frames, i)}
      ensures KnownAt(r', frames, i)
    {
      assert KnownAt(r, frames, i);
    }
    forall j: nat {:trigger BareAt(r', bs', j)}
      ensures BareAt(r', bs', j)
    {
      assert BareAt(r, bs, j);
      assert Ordered(r.parens, j, pi) && Ordered(r.parens, pi, j);
    }
  }

  lemma BraceEndKnown(raw: seq<Op>, n: nat, r: Reading, frames: seq<nat>, bs: seq<bool>, b: nat, rest: seq<nat>, i: nat)
    requires CommandsAre(raw, n, r, frames, bs) && n < |raw| && raw[n].kind == Inner2 && r.braces == rest + [b] && b < n
    requires raw[b].kind == Inner1 && forall y :: y in rest ==> y < b
    ensures KnownAt(EndBrace(r), frames, i)
  {
    assert KnownAt(r, frames, b) && KnownAt(r, frames, i);
    assert EndBrace(r).braces == rest;
  }

  lemma AddBraceEnd(raw: seq<Op>, n: nat, r: Reading, frames: seq<nat>, bs: seq<bool>)
    requires CommandsAre(raw, n, r, frames, bs) && n < |raw| && raw[n].kind == Inner2
    requires r.braces != [] && Increasing(r.braces) && forall y :: y in r.braces ==> y < n && raw[y].kind == Inner1
    requires forall y :: y in r.parens ==> y < n
    ensures CommandsAre(raw, n + 1, EndBrace(r), frames, bs)
  {
    var r', m := EndBrace(r), |r.braces| - 1;
    var b := r.braces[m];
    assert r.braces == r.braces[..m] + [b];
    LastIsLargest(r.braces[..m], b);
    forall i: nat {:trigger KnownAt(r', frames, i)}
      ensures KnownAt(r', frames, i)
    {
      BraceEndKnown(raw, n, r, frames, bs, b, r.braces[..m], i);
    }
    forall j: nat {:trigger BareAt(r', bs, j)}
      ensures BareAt(r', bs, j)
    {
      assert BareAt(r, bs, j);
    }
  }

  /** Going into a block, or out of one whose brackets are all ended, changes no command. */
  lemma BlockCommands(raw: seq<Op>, n: nat, r: Reading, frames: seq<nat>, bs: seq<bool>)
    requires CommandsAre(raw, n, r, frames, bs)
    ensures CommandsAre(raw, n, Inward(r), frames, bs)
    ensures r.loops == [] ==> CommandsAre(raw, n, Outward(r), frames, bs)
  {
    var inside, outside := Inward(r), Outward(r);
    forall i: nat
      ensures KnownAt(inside, frames, i) && KnownAt(outside, frames, i)
    {
      assert KnownAt(r, frames, i);
    }
    forall k: nat
      ensures BareAt(inside, bs, k) && BareAt(outside, bs, k)
    {
      assert BareAt(r, bs, k);
    }
  }

  // The stacks.

  /** The stacks after a token: what is pushed or popped of the three kinds. */
  lemma OtherStacks(raw: seq<Op>, n: nat, r: Reading, c: Levels.Open)
    requires StacksAre(raw, n, r, c) && n < |raw| && Costed(raw[n].kind) && raw[n].kind != Loop1 && raw[n].kind != Loop2
    ensures StacksAre(raw, n + 1, r, LoopScanned(raw, n + 1)) && LoopScanned(raw, n + 1) == c && Bare(raw, n + 1) == Bare(raw, n)
  {
  }

  lemma LoopStacks(raw: seq<Op>, n: nat, r: Reading, c: Levels.Open, r': Reading)
    requires StacksAre(raw, n, r, c) && n < |raw|
    requires r'.parens == r.parens && r'.braces == r.braces && r'.loopses == r.loopses
    requires if raw[n].kind == Loop1 then r'.loops == r.loops + [n]
             else raw[n].kind == Loop2 && c.Frame? && r'.loops == r.loops[..|r.loops| - 1]
    ensures StacksAre(raw, n + 1, r', LoopScanned(raw, n + 1)) && Bare(raw, n + 1) == Bare(raw, n)
    ensures raw[n].kind == Loop1 ==> Frames(LoopScanned(raw, n + 1)) == Frames(c) + [n]
    ensures raw[n].kind == Loop2 ==> r.loops[|r.loops| - 1] == c.at && LoopScanned(raw, n + 1) == c.outer
                                     && Frames(c) == Frames(c.outer) + [c.at]
  {
  }

  lemma BeginStacks(raw: seq<Op>, n: nat, r: Reading, c: Levels.Open, r': Reading)
    requires StacksAre(raw, n, r, c) && n < |raw| && (raw[n].kind == Rep1 || raw[n].kind == Inner1)
    requires r'.loops == [] && r'.loopses == r.loopses + [r.loops]
    requires r'.parens == if raw[n].kind == Rep1 then r.parens + [n] else r.parens
    requires r'.braces == if raw[n].kind == Inner1 then r.braces + [n] else r.braces
    ensures StacksAre(raw, n + 1, r', LoopScanned(raw, n + 1)) && Frames(LoopScanned(raw, n + 1)) == Frames(c)
  {
  }

  lemma EndStacks(raw: seq<Op>, n: nat, r: Reading, c: Levels.Open, r': Reading)
    requires StacksAre(raw, n, r, c) && n < |raw| && c.Counted?
    requires r'.loops == Top(c.outer) && r'.loopses == Under(c.outer)
    requires if raw[n].kind == Rep2 then r.parens != [] && r'.parens == r.parens[..|r.parens| - 1] && r'.braces == r.braces
             else raw[n].kind == Inner2 && r.braces != [] && r'.braces == r.braces[..|r.braces| - 1] && r'.parens == r.parens
    ensures StacksAre(raw, n + 1, r', LoopScanned(raw, n + 1)) && Frames(LoopScanned(raw, n + 1)) == Frames(c)
  {
  }

  /** The innermost open token at the end of a block. */
  lemma EndsCounted(raw: seq<Op>, n: nat, r: Reading, c: Levels.Open)
    requires StacksAre(raw, n, r, c) && n < |raw| && !Unmatched(raw, n) && (raw[n].kind == Rep2 || raw[n].kind == Inner2)
    ensures c.Counted? && r.loops == [] && r.loopses == Under(c.outer) + [Top(c.outer)]
    ensures Outward(r).loops == Top(c.outer) && Outward(r).loopses == Under(c.outer)
    ensures if raw[n].kind == Rep2 then r.parens != [] else r.braces != []
  {
    assert |Under(c)| > 0;
  }

  // Together.

  lemma NextEnd(raw: seq<Op>, n: nat, r: Reading)
    requires Tracked(raw, n, r) && n < |raw| && !Unmatched(raw, n) && RawAt(raw, n) && (raw[n].kind == Rep2 || raw[n].kind == Inner2)
    ensures Tracked(raw, n + 1, Next(r, raw[n]))
  {
    var c, frames, bs := LoopScanned(raw, n), Frames(LoopScanned(raw, n)), Bare(raw, n);
    OpenParensFacts(raw, n, r, c);
    EndsCounted(raw, n, r, c);
    BlockCommands(raw, n, r, frames, bs);
    EndStacks(raw, n, r, c, Next(r, raw[n]));
    if raw[n].kind == Rep2 {
      AddParenEnd(raw, n, Outward(r), frames, bs, raw[n].count);
    } else {
      AddBraceEnd(raw, n, Outward(r), frames, bs);
    }
  }

  lemma NextParen(raw: seq<Op>, n: nat, r: Reading)
    requires Tracked(raw, n, r) && n < |raw| && raw[n].kind == Rep1
    ensures Tracked(raw, n + 1, Next(r, raw[n]))
  {
    var c, frames, bs := LoopScanned(raw, n), Frames(LoopScanned(raw, n)), Bare(raw, n);
    OpenParensFacts(raw, n, r, c);
    BlockCommands(raw, n, r, frames, bs);
    AddParen(raw, n, Inward(r), frames, bs);
    BeginStacks(raw, n, r, c, BeginParen(Inward(r)));
  }

  lemma NextBrace(raw: seq<Op>, n: nat, r: Reading)
    requires Tracked(raw, n, r) && n < |raw| && !Unmatched(raw, n) && raw[n].kind == Inner1
    ensures Tracked(raw, n + 1, Next(r, raw[n]))
  {
    var c, frames, bs := LoopScanned(raw, n), Frames(LoopScanned(raw, n)), Bare(raw, n);
    OpenParensFacts(raw, n, r, c);
    BlockCommands(raw, n, r, frames, bs);
    FreeIs(Inward(r), bs);
    AddBrace(raw, n, Inward(r), frames, bs);
    BeginStacks(raw, n, r, c, BeginBrace(Inward(r)));
  }

  lemma NextLoop(raw: seq<Op>, n: nat, r: Reading)
    requires Tracked(raw, n, r) && n < |raw| && !Unmatched(raw, n) && (raw[n].kind == Loop1 || raw[n].kind == Loop2)
    ensures Tracked(raw, n + 1, Next(r, raw[n]))
  {
    var c, bs := LoopScanned(raw, n), Bare(raw, n);
    OpenParensFacts(raw, n, r, c);
    LoopStacks(raw, n, r, c, Next(r, raw[n]));
    if raw[n].kind == Loop1 {
      AddLoop(raw, n, r, Frames(c), bs);
    } else {
      AddLoopEnd(raw, n, r, Frames(c.outer), c.at, bs);
    }
  }

  lemma NextTracked(raw: seq<Op>, n: nat, r: Reading)
    requires Tracked(raw, n, r) && n < |raw| && !Unmatched(raw, n) && RawAt(raw, n)
    ensures Tracked(raw, n + 1, Next(r, raw[n]))
  {
    var k, c := raw[n].kind, LoopScanned(raw, n);
    if k == Rep1 {
      NextParen(raw, n, r);
    } else if k == Inner1 {
      NextBrace(raw, n, r);
    } else if k == Rep2 || k == Inner2 {
      NextEnd(raw, n, r);
    } else if k == Loop1 || k == Loop2 {
      NextLoop(raw, n, r);
    } else {
      OpenParensFacts(raw, n, r, c);
      OtherStacks(raw, n, r, c);
      AddPlain(raw, n, r, Frames(c), Bare(raw, n), k);
    }
  }

  /** A token that cannot be matched is noticed. */
  lemma NextFails(raw: seq<Op>, n: nat, r: Reading)
    requires Tracked(raw, n, r) && n < |raw| && Unmatched(raw, n)
    ensures !Next(r, raw[n]).fine
  {
    var c := LoopScanned(raw, n);
    FreeIs(r, Bare(raw, n));
    assert Free(Inward(r).ret, Inward(r).parens) == Free(r.ret, r.parens);
  }

  /** And not forgotten. */
  lemma StaysUnfine(r: Reading, o: Op)
    requires Safe(r) && !r.fine
    ensures !Next(r, o).fine
  {
  }

  /** In the end, everything is matched if nothing is open. */
  lemma MatchedAtEnd(raw: seq<Op>, n: nat, r: Reading)
    requires Tracked(raw, n, r)
    ensures AllMatched(r.ret, n) <==> OpenParens(raw, n) == 0 && OpenBraces(raw, n) == 0 && OpenBrackets(raw, n) == 0
  {
    var c, frames := LoopScanned(raw, n), Frames(LoopScanned(raw, n));
    OpenParensFacts(raw, n, r, c);
    if r.parens != [] {
      assert r.parens[0] in r.parens && KnownAt(r, frames, r.parens[0]);
      assert !Matched(r.ret, r.parens[0]);
    }
    if r.braces != [] {
      assert r.braces[0] in r.braces && KnownAt(r, frames, r.braces[0]);
      assert !Matched(r.ret, r.braces[0]);
    }
    if frames != [] {
      assert frames[0] in frames && KnownAt(r, frames, frames[0]);
      assert !Matched(r.ret, frames[0]);
    }
    if r.parens == [] && r.braces == [] && frames == [] {
      forall i: nat {:trigger Matched(r.ret, i)} | i < n
        ensures Matched(r.ret, i)
      {
        assert KnownAt(r, frames, i);
      }
    }
  }

  /** Nothing has been noticed exactly if everything could be matched so far. */
  ghost predicate Watched(raw: seq<Op>, n: nat, r: Reading)
  {
    Safe(r) && (r.fine <==> MatchedBefore(raw, n)) && (r.fine ==> Tracked(raw, n, r))
  }

  lemma NextWatched(raw: seq<Op>, n: nat, r: Reading, r': Reading)
    requires n < |raw| && RawAt(raw, n) && Watched(raw, n, r) && r' == Next(r, raw[n])
    ensures Watched(raw, n + 1, r')
  {
    if !r.fine {
      StaysUnfine(r, raw[n]);
    } else if Unmatched(raw, n) {
      NextFails(raw, n, r);
    } else {
      NextTracked(raw, n, r);
    }
  }

  lemma {:induction false} ReadAllWatched(raw: seq<Op>, n: nat)
    requires Raw(raw) && n <= |raw|
    ensures Watched(raw, n, ReadAll(raw, n))
    decreases n
  {
    if n == 0 {
      NothingTracked(raw);
    } else {
      ReadAllWatched(raw, n - 1);
      assert RawAt(raw, n - 1);
      NextWatched(raw, n - 1, ReadAll(raw, n - 1), ReadAll(raw, n));
    }
  }

  /** The interpreter's parser accepts a list exactly if every token is matched and nothing is left open. */
  lemma AcceptsSound(raw: seq<Op>)
    requires Raw(raw)
    ensures var n := |raw| - 1;
            ReadAll(raw, n).fine && AllMatched(ReadAll(raw, n).ret, n) <==> Sound(raw, n)
  {
    var n: nat := |raw| - 1;
    ReadAllWatched(raw, n);
    if MatchedBefore(raw, n) { MatchedAtEnd(raw, n, ReadAll(raw, n)); }
  }

  /** `({)}`: the interpreter accepts crossing parens and braces, and the engine does not. */
  lemma CrossingAccepted()
    ensures var raw := [Written(Rep1), Written(Inner1), Written(Rep2), Written(Inner2), Written(Done)];
            Raw(raw) && Sound(raw, 4) && Blamed(raw, BraceNotEnded)
  {
    var raw := [Written(Rep1), Written(Inner1), Written(Rep2), Written(Inner2), Written(Done)];
    FirstTwo(raw);
    assert Bare(raw, 1) == [true] && true in Bare(raw, 1);
    assert OpenBraces(raw, 2) == 1 && OpenBraces(raw, 3) == 1 && OpenParens(raw, 3) == 0;
    assert LoopScanned(raw, 2) == Counted(1, Counted(0, Nothing)) && LoopScanned(raw, 3) == Counted(0, Nothing);
    NoFaultHere(raw, 0);
    NoFaultHere(raw, 1);
    assert FaultAt(raw, 2, BraceNotEnded);
    forall at: nat {:trigger Unmatched(raw, at)} | at < 4
      ensures !Unmatched(raw, at)
    {
      assert at == 0 || at == 1 || at == 2 || at == 3;
    }
  }
}
